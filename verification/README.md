# Sessions, OAuth cookies and codecs: a Dafny model

This project models the state-carrying core of an authentication crate and proves properties of it. It has
three parts.

**Sessions.** A table of sessions, a table of users, a Redis cache with expiring keys, and a clock. `Sessions`
describes one request at a time (`get_session`, `authorize`, `check_session`, the refresh endpoint, the web
middleware); `AuthorizationHandle` is the handle whose methods update the tables and the cache, each proved equal
to the function of the same name. `SessionRuns` lets any number of requests interleave between their database and
Redis round trips, any of which may fail, while the application deletes sessions, changes or deletes users, keys are
evicted, other clients write anything to Redis, and time passes; `SessionHistory`, `RoleFreshness` and `Api` state what
holds of every run of that machine.

**The OAuth cookie protocol.** `Cookies` has the cookie definitions, the ordered header buffer and the browser's
store of section 5.3 of RFC 6265. `OAuth` has the start and callback handlers, statement by statement, against
functions that give the headers and the reply. `OAuthRuns` is one browser with any number of tabs: responses are
delivered in any order, late or never, cookies are forgotten, time passes. Between requests the whole protocol
state is in the browser, and the main theorems speak about callbacks in every run of it. `SignInEndToEnd` joins the
two parts: the session cookie that a sign-in leaves is the session that later requests load.

**Codecs.** Password strings and PBKDF2 (section 5.2 of RFC 8018), base64url (section 5 of RFC 4648), the duration
reader and the Go-style duration writer, SQL identifier quoting, the script-safe JSON escaper (section 7 of
RFC 8259), and the role decision.

## What the code does not do

Some promises one would expect are false of the code; each is stated with its exact condition.

- The cache is transparent except in two cases: a live, cached session whose user's roles have become empty or
  unreadable keeps the roles in the cache, and an entry that another client wrote under a live session's key is
  believed (`Sessions.CacheTransparent`; `SessionHistory.StaleRolesHappen` and `SessionHistory.ForeignEntryIsTrusted`
  are runs that get there). Nothing in Redis revives a dead session (`SessionHistory.DeadStaysDead`).
- `check_session` refuses every refresh token whose sign-in spelled the user identifier in a non-canonical way, which
  the refresh endpoint accepts (`SessionHistory.RefreshPathsAgree`, `SessionHistory.SpellingMatters`).
- The API middleware never looks at the session: it admits access tokens for a bounded time after the session's end
  (`Api.ApiOutlivesSession`), and any refresh token as well, until that token's own expiry
  (`Api.RefreshTokenAdmitted`, `Api.RefreshTokenOutlivesSession`).
- A duration whose count has more than 32 bits loses the high ones (`Durations.ParseText`, `Durations.ParseCut`), and
  so does the block count of a derived key beyond the standard's limit (`Password.Pbkdf2Sha256`), which takes a stored
  digest of more than 128 GiB.
- Hashing with zero iterations derives a key with one, but the string it writes is refused when read
  (`Password.DecodeEncodedHash`); the crate itself only ever hashes with a positive constant.
- The access token of a sign-in outlives its refresh token when the configured access duration is the longer one
  (`Tokens.LifetimeOrder`).
- The connect marker belongs to the browser's latest start, not to the round trip that a callback finishes. For every
  provider a completed callback is a connect exactly if its request carries the marker, and it carries it only when
  the latest start asked for a connect (`OAuthRuns.ConnectIntegrity`; how long it lasts is `OAuthRuns.MarkerLasts`).
  Behind the state check the latest start is the one that issued the state, so no plain start is answered by a
  connect (`OAuthRuns.ConnectWasRequested`). Without that check a plain start's callback is, after a connect was
  refused (`OAuthRuns.RefusedConnectLingers`) or accepted and abandoned (`OAuthRuns.AbandonedConnectTakesOver`) in
  between.
- A state does not pass at most once: it passes again as long as every step spares it, in particular until the
  response to its callback reaches the browser, and never afterwards (`OAuthRuns.StateUsable`,
  `OAuthRuns.StateIsSingleUse`).

## Conventions

HMAC-SHA256, SHA-256, lower-casing, the UUID syntax and the reading of an identifier by each of the two tables are
parameters, so every result holds for any such functions. A signed token is identified with its claims. Random
identifiers are inputs; `FreshStates` says that two starts draw different states. Times in the session part are
microseconds, the browser's are seconds.

## Model

| member | source | states |
|---|---|---|
| Sessions.RedisKeyInjective | src/utils.rs:35-42 | a cache key is the prefix, or its default, a colon and the session; two sessions never share one |
| Sessions.LoadedIsLive | src/session.rs:144-204 | whatever Redis holds, from whatever writer, and whichever round trips fail: a session loads only when the one asked for is undeleted and unexpired |
| Sessions.LoadedIsOwn | src/session.rs:150-175 | the loaded identifier and user are the row's exactly when the cache entry used, if any, says so, because the code does not compare them; entries the crate wrote always do |
| Sessions.LoadedRoles | src/session.rs:151-190 | the roles of a loaded session: on a miss those stored for the row's user, on a hit those stored for the entry's user if readable and not empty, else the entry's |
| Sessions.LiveLoads | src/session.rs:144-204 | without failing round trips a session loads exactly if it is live and either cached or its user's roles are readable |
| Sessions.ScanColumn | src/types.rs:184-196 | a NULL roles column is an empty list, an array is itself, anything else an error that is neither missing nor expired |
| Sessions.DeadFails | src/session.rs:150-190 | whatever Redis holds, a deleted or expired session never loads, and fails as missing or expired accordingly |
| Sessions.DeadRefused | src/session_check.rs:24-107 | so `check_session`, the refresh endpoint and a protected page all refuse it, whatever Redis holds |
| Sessions.DeadAnswers | src/refresh.rs:130-150 | without failing round trips the refresh endpoint and `check_session` answer a dead session by its death, deleted or expired, and a page redirects to sign-in |
| Sessions.CacheTransparent | src/session.rs:144-204 | for any cache contents: with and without Redis the answer is the same (identifier, user, roles; class of failure) exactly when the roles are not stale and the entry is not another session's or user's |
| Sessions.LoadKeepsStore | src/session.rs:154-201 | what a load writes to the cache agrees with the tables, if what it found did |
| Sessions.CacheTransparentForUsersWithRoles | src/session.rs:151-163 | in particular for every session whose user has readable, non-empty roles |
| Sessions.AuthorizeKeepsStore | src/authorize.rs:79-113 | a sign-in keeps the foreign key and the agreement of cache and tables |
| Sessions.AuthorizeInFull | src/session.rs:248-296 | a sign-in leaves exactly the new row, for its user, until one refresh duration from now, and nothing else; when it is inserted and when the sign-in succeeds |
| Sessions.AuthorizeClaims | src/token.rs:144-185 | user, content, roles, times and session in both tokens of a sign-in; the roles are the stored ones where they can be read |
| Sessions.AuthorizeThenUse | src/authorize.rs:79-113 | until the row expires, the new session loads for the user who signed in with the stored roles, and its refresh token buys an access token; `check_session` agrees exactly for canonical user identifiers |
| Sessions.RefreshPathsCompared | src/session_check.rs:24-70 | in any store: `check_session` succeeds exactly when the refresh endpoint does and the token's user, if named, is the loaded session's; both mint the same claims and leave the same cache |
| Sessions.RefreshAnswers | src/refresh.rs:106-164 | every reply of the refresh endpoint, for any store, token and faults; the new token has the presented token's user, the loaded session's roles and one access duration, and the presented token's roles play no part |
| Sessions.CheckAnswers | src/session_check.rs:24-70 | every result of `check_session`, likewise, with the cause of each refusal |
| Sessions.PassNeedsLiveSession | src/middleware.rs:246-283 | a page that is not excluded is only served on a live session, whatever Redis holds |
| Sessions.WebAnswers | src/middleware.rs:246-283 | every reply of the web middleware by its cause: missing and expired sessions go to sign-in, other failures are server errors, and a page is served exactly if a stored grant matches |
| AuthorizationHandle.Authorization.constructor | src/session.rs:139-141 | an empty, well-formed store |
| AuthorizationHandle.Authorization.GetSessionFromRedis | src/session.rs:223-234 | the cached value until its key expires; in a cache that only the crate writes, the session's own |
| AuthorizationHandle.Authorization.SetSessionToRedis | src/session.rs:237-245 | overwrites exactly the session's own key with at least one second to live, or changes nothing; keeps the cache well formed |
| AuthorizationHandle.Authorization.EnsureSessionActive | src/session_check.rs:73-107 | succeeds only on a live session |
| AuthorizationHandle.Authorization.GetSession | src/session.rs:139-204 | result and cache of the specification; success means the session asked for is live; the store stays well formed |
| AuthorizationHandle.Authorization.LoadFromCache | src/session.rs:151-176 | a hit succeeds only on a live row and keeps the entry's identifier and user; result and cache as specified |
| AuthorizationHandle.Authorization.LoadFromTables | src/session.rs:178-204 | a miss succeeds only on a live row and names that row and its user; result and cache as specified |
| AuthorizationHandle.Authorization.Authorize | src/authorize.rs:79-113 | stored roles replace the given ones, one row is inserted with its deadline (src/session.rs:248-296), both tokens are signed; the store stays well formed |
| AuthorizationHandle.Authorization.CheckSession | src/session_check.rs:24-70 | the result that Sessions.CheckAnswers spells out, with cache and session cookie; the cookie is written exactly on success and names a live session |
| AuthorizationHandle.Authorization.RefreshResponse | src/refresh.rs:102-165 | the reply that Sessions.RefreshAnswers spells out, with the cache; a new access token means the session is live, whatever Redis held |
| AuthorizationHandle.Authorization.WebOutcome | src/middleware.rs:246-283 | decision and cache of the specification; passing a protected route means the cookie names a live session, whatever Redis held |
| SessionRuns.UndisturbedIsAtomic | src/session.rs:144-204 | the round trips of one request with nothing in between give the result and the cache of the atomic operation |
| SessionRuns.NextGrows | examples/schema.sql:15-28 | no step revives a used session, moves its deadline or changes its user |
| SessionRuns.NextKeepsInv | src/session.rs:144-296 | every step of every interleaving keeps tables, requests in flight and tokens consistent, and the cache as long as nobody else writes to it |
| SessionRuns.RunKeepsInv | src/session.rs:144-296 | so does every run |
| SessionHistory.FinishedForever | src/session_check.rs:94-107 | a session once deleted or expired is so in every continuation |
| SessionHistory.SuccessWasLive | src/session.rs:144-204 | with any writer on Redis: every loaded session and every minted token rests on a round trip of its own request, after it arrived, that saw the row live with its user |
| SessionHistory.SightIsOfAsked | src/session.rs:150-152 | and that row is the one the request named, by cookie or in its refresh token |
| SessionHistory.RequestsAnswer | src/refresh.rs:130-164 | over runs: every request stays about the session its first step named, and every token carries the user of the presented refresh token or of its sign-in |
| SessionHistory.DeadStaysDead | src/session_check.rs:73-107 | with any writer on Redis and any interleaving: a request that arrives after a session's end and names it never loads a session and never gets a token, in any continuation |
| SessionHistory.NoSightAfterEnd | src/session.rs:150-190 | nor does any other request rest on that row afterwards |
| SessionHistory.BoundedRevocation | src/refresh.rs:130-164 | with any writer on Redis: every access token ever minted runs out at most one access duration, plus its request's own latency, after the deadline of the session its request named and after the moment that was seen deleted or expired |
| SessionHistory.HeldWasStored | src/user.rs:83-96 | the record of roles that users ever had is a record of real states |
| SessionHistory.CacheIsGenuine | src/session.rs:194-201 | every entry the crate writes sits under its own key, names the row's user, and lists roles that user really had at some step |
| SessionHistory.LoadedIsGenuine | src/session.rs:154-163 | without another writer, a loaded session is the row that was seen live, for that row's user, with roles the user really had |
| RoleFreshness.RolesAreRecent | src/session.rs:150-201 | without another writer, the roles of a loaded session were read by its own request, or come from an entry found within one cache lifetime of its writing, whose writer had read them; a hit does not prolong them |
| RoleFreshness.ServedAge | src/session.rs:237-245 | so at the hit they are less than one cache lifetime and the writer's own delay old |
| RoleFreshness.AllSourced | src/session.rs:150-201 | every cached role list in every reachable state goes back to the round trips that read and wrote it |
| RoleFreshness.MintedRolesAreRecent | src/token.rs:120-140 | over runs: the roles in every minted access token are what its sign-in went on with, or were read by its own refresh, or come from an entry within one cache lifetime of its writing; `check_session` mints only for the row's user |
| SessionHistory.RefreshPathsAgree | src/refresh.rs:106-164 | for every refresh token ever issued, in every reachable state: with a canonical or empty user identifier the two refresh paths agree and mint the same claims, with any other spelling `check_session` always refuses; unless another writer put a false entry under the session's key |
| SessionHistory.SpellingMatters | src/session_check.rs:54-56 | a run in which the second case occurs and the paths differ |
| SessionHistory.CacheTransparentAlways | src/session.rs:144-204 | cache transparency, with its exact condition, in every reachable state; a false entry needs another writer |
| SessionHistory.StaleRolesHappen | src/session.rs:154-156 | a run in which the exception to transparency occurs |
| SessionHistory.ForeignEntryIsTrusted | src/session.rs:165-175 | a run in which another writer's entry makes a live session load as another one |
| Api.ApiOutcome | src/middleware.rs:143-173 | a request goes through exactly with a current signed token, one of whose string grants names a wanted role; the error replies with their exact causes |
| Api.AccessTokenAdmitted | src/middleware.rs:40-50 | no foreign token is admitted, and an access token exactly until its expiry and the leeway and by its roles |
| Api.ApiOutlivesSession | src/middleware.rs:143-173 | in every run, an access token is admitted for less than the access duration, the leeway, one second and its latency after its session's end |
| Api.RefreshTokenAdmitted | src/middleware.rs:40-50 | every refresh token ever issued is admitted too, exactly until one refresh duration and the leeway after its signing and exactly by its roles, whatever became of its session |
| Api.RefreshTokenOutlivesSession | src/middleware.rs:143-173 | a run in which the API admits the refresh token of a session that has ended |
| Tokens.LifetimeOrder | src/token.rs:144-185 | access expiry is at most refresh expiry exactly if the durations are in that order; refresh expiry is never below the whole second of the row's; the token tells the access lifetime in Go's grammar and is accepted when issued |
| Tokens.ExtractAccepts | src/token.rs:89-112 | exactly an own refresh token no further past its expiry than the leeway is one; access tokens and foreign ones are not |
| Tokens.DefaultLifetimes | src/token.rs:144-160 | without configuration an access token lasts a minute and a refresh token a year |
| Password.XorInto | src/password.rs:94-96 | the buffer becomes the bytewise exclusive or |
| Password.XorDigits | src/password.rs:94-96 | each binary digit is set exactly when one of the two is |
| Password.IndexOctets | src/password.rs:85-91 | the block index is four octets, most significant first |
| Password.DerivableLengths | src/password.rs:85-87 | the lengths without wrap are those of the standard, at most 2^32 - 1 blocks of 32 octets |
| Password.DeriveBlock | src/password.rs:83-99 | one block is F of section 5.2 of RFC 8018 |
| Password.Pbkdf2Sha256 | src/password.rs:77-104 | the loops compute DK of section 5.2 of RFC 8018 for every permitted length; the exact result when the 32-bit block count wraps |
| Password.DerivedKeyPrefix | src/password.rs:77-104 | a shorter key is a prefix of a longer one |
| Password.DecodeEncodedHash | src/password.rs:43-75 | decoding an encoded hash returns its iterations, salt and derived key; only zero iterations are refused |
| Password.DecodedHashText | src/password.rs:54-75 | the text of any accepted hash is determined by its parts, up to the spelling of the count |
| Password.CheckPassword | src/password.rs:35-41 | accepts exactly when the derived key equals the stored digest; a malformed hash accepts nothing |
| Password.EncodedHashAccepts | src/password.rs:35-52 | a stored hash accepts its own password, and exactly the passwords with the same derived key |
| Base64Url.PackSpread | src/password.rs:48-49 | splitting bytes into six-bit digits loses nothing |
| Base64Url.SpreadPack | src/password.rs:68-73 | canonical digits come back from the bytes they stand for |
| Base64Url.DecodeEncode | src/password.rs:48-73 | decoding an encoded byte string returns it |
| Base64Url.EncodeDecode | src/password.rs:68-73 | an accepted text is the encoding of what it decodes to: no second spelling |
| Base64Url.Alphabet | src/password.rs:48-49 | the URL-safe alphabet of section 5 of RFC 4648 |
| Base64Url.SpreadNumber | src/password.rs:48-49 | three bytes and their four digits are the same number, most significant first |
| Base64Url.Vectors | src/password.rs:48-49 | the test vectors of section 10 of RFC 4648, and one with both URL-safe signs |
| Durations.ParseText | src/utils.rs:73-106 | any digits with any unit read as the product if and only if the count is below 2^32; error if and only if it exceeds 64 bits; no overflow |
| Durations.ParseUnits | src/utils.rs:91-103 | the seven units in seconds, for every count below 2^32 |
| Durations.ParseRefuses | src/utils.rs:73-106 | which error every other text is, and that an empty one reads as the default |
| Durations.ParseCut | src/utils.rs:105-105 | at 2^32 seconds the count is cut to none |
| Durations.ParseAccepts | src/utils.rs:73-106 | which texts are durations at all |
| Durations.ParseDecimal | src/utils.rs:73-106 | the decimal text of every count below 2^32 followed by a unit reads as their product |
| Durations.GoDurationRoundTrip | src/utils.rs:111-147 | reading the written text in Go's grammar gives back the exact nanoseconds |
| QuoteIdent.LexQuotedBody | src/db.rs:20-25 | a quoted part ends where it was meant to, whatever quotes it contains |
| QuoteIdent.QuoteIdentRoundTrip | src/db.rs:20-25 | lexed as delimited identifiers of section 5.2 of ISO/IEC 9075-2, the quoted name is exactly the dot-separated parts |
| QuoteIdent.QuoteIdentInjective | src/db.rs:20-25 | different names are quoted differently |
| ScriptEscape.EscapeIsOnePass | src/callback_page.rs:46-50 | the three replacements in sequence are one character map |
| ScriptEscape.EscapedHasNoSpecial | src/callback_page.rs:46-50 | no angle bracket or ampersand is left |
| ScriptEscape.EscapePreservesJson | src/callback_page.rs:46-50 | every JSON text keeps its decoded token stream; escaping twice changes nothing more |
| Roles.GetRole | src/roles.rs:35-73 | the two loops decide exactly by the existence of a matching, reading and writing grant |
| Roles.GrantDecision | src/roles.rs:35-89 | what the texts mean, for every endpoint role and grant: the name before the first colon, the permissions after it, both trimmed; names compare ignoring case; blank names match nothing, missing permissions permit nothing |
| Roles.EveryTextSplits | src/roles.rs:76-89 | every text is of the form that statement speaks of |
| Roles.DecideAppend | src/roles.rs:60-72 | the decision on two lists together is the pointwise or |
| Roles.DecideIgnoresOrder | src/roles.rs:35-73 | order and repetition do not matter on either side |
| Roles.DecideFormatted | src/roles.rs:128-160 | trimming and dropping blanks first never changes the decision |
| Text.SplitOnceInverse | src/flow_intent.rs:31-33 | splitting at the first separator and joining again is the identity |
| Text.TrimStrips | src/connect_resource.rs:39-41 | trimming takes whitespace off both ends and nothing else |
| Text.TrimAround | src/roles.rs:76-89 | trimming a text with a separator trims the outer ends of its two parts |
| Cookies.ResponseWriter.AppendCookie | src/cookies.rs:264-268 | appends one header, or drops a cookie that is no header value |
| Cookies.ResponseWriter.SetCookie | src/cookies.rs:244-254 | appends the cookie with its age; a zero age makes a session cookie |
| Cookies.SetLasts | src/cookies.rs:244-254 | a cookie that is set is sent for exactly its age; with age zero until the browser drops it |
| Cookies.ResponseWriter.ExpireCookie | src/cookies.rs:257-262 | appends the cookie's removal |
| Cookies.ResponseWriter.ExpireOauthFlowCookies | src/cookies.rs:216-223 | appends the removal of the six transient cookies, in order |
| Cookies.CookieJar.Def | src/cookies.rs:97-120 | an override can turn the two protections on but not off |
| Cookies.OverrideFields | src/cookies.rs:97-120 | each field an override sets wins, each it leaves keeps the default |
| Cookies.DefaultCookies | src/cookies.rs:84-212 | names, protection, scope and age of the seven default cookies on both schemes |
| Cookies.DefaultNamesUsable | src/cookies.rs:122-212 | the default cookies are told apart by name and all render, on both schemes |
| OAuth.RandomStrings | src/checks.rs:11-15 | a random string is a cookie value, is not empty and determines its bytes |
| OAuth.BuildAuthorizationUrl | src/oauth.rs:65-104 | the inserts give the URL that OAuth.UrlCarries describes key by key, in whatever order the provider's parameters come |
| OAuth.LayOver | src/oauth.rs:95-99 | of a repeated parameter the last value stays, one without values changes nothing |
| OAuth.UrlCarries | src/oauth.rs:65-104 | the URL key by key: client, code flow, callback, scopes, state, base64url of the SHA-256 of the verifier with method S256, nonce, under exactly their guards; a key the provider sets has its last value; nothing else |
| OAuth.UrlEssentials | src/checks.rs:18-21 | state, challenge, method and callback of the URL, one by one |
| OAuth.FormCarries | src/oauth.rs:122-143 | the token request key by key: grant, code, callback, the verifier exactly when there is one, client name and secret exactly in the body style; nothing else |
| OAuth.OnlySignedIntentVerifies | src/flow_intent.rs:26-39 | exactly one cookie value verifies for an intent, and none for two |
| OAuth.IntentText | src/flow_intent.rs:15-39 | the accepted marker is the text of a connect with its signature, and nothing else |
| OAuth.WriteConnect | src/action_auth.rs:163-190 | the connect markers that are written or cleared, and exactly which starts are refused |
| OAuth.WriteChecks | src/action_auth.rs:194-209 | each check in use gets a value, in its cookie and for the URL |
| OAuth.StartOauth | src/action_auth.rs:139-228 | the headers in order, and the reply that OAuth.StartAnswers spells out, of every start |
| OAuth.StartAnswers | src/action_auth.rs:147-228 | exactly which starts fail, and the URL of the others for the request's own draws |
| OAuth.CheckState | src/action_auth.rs:417-431 | passes exactly on a non-empty, equal state; clears it either way |
| OAuth.ConsumeFlowIntent | src/flow_intent.rs:66-82 | accepts exactly the marker signed for a connect; clears it unless there is no secret |
| OAuth.CompleteProviderConnect | src/action_auth.rs:536-580 | the resource that was remembered, and its removal |
| OAuth.OauthCallbackInner | src/action_auth.rs:387-534 | headers, and the reply and token request that OAuth.StateGate and OAuth.CallbackAnswers spell out, of every callback |
| OAuth.OauthCallback | src/action_auth.rs:364-385 | and the final clearing, whatever happened before |
| OAuth.StateGate | src/action_auth.rs:424-431 | with the state check on, a missing or different state ends in an error page and posts nothing; the code is redeemed exactly if the checks before it hold; no connect or sign-in without redeeming it |
| OAuth.CallbackAnswers | src/action_auth.rs:387-534 | every answer: the error page of each failure, in order; past them a connect for the remembered resource exactly with the signed marker, and else a sign-in, for the resolved user |
| OAuth.RedirectMatches | src/oauth.rs:115-143 | the token request has the callback's code, the browser's verifier and the callback address of the authorization URL, as section 4.1.3 of RFC 6749 needs |
| OAuthRuns.StartLeaves | src/action_auth.rs:160-219 | which state, verifier, resource and intent cookies a start leaves in the browser, whatever was there before |
| OAuthRuns.StartRemembers | src/action_auth.rs:206-219 | which return target, token preference and nonce a start leaves in the browser, whatever it held; a target that is no header value is not remembered |
| OAuthRuns.CallbackLeaves | src/action_auth.rs:380-383 | a callback clears the first three, and the intent exactly when it came to completion |
| OAuthRuns.CallbackClears | src/action_auth.rs:380-383 | every callback clears the six transient cookies, whatever it is answered |
| OAuthRuns.RunKeeps | src/action_auth.rs:139-534 | in every run each of the four cookies is gone or is exactly what the latest start left |
| OAuthRuns.LatestIsLast | src/cookies.rs:216-223 | the latest start is the last one whose response the browser took |
| OAuthRuns.StateWasIssued | src/action_auth.rs:424-431 | a state that passes was drawn by the browser's latest start, stands in the URL that start redirected to, and is not over age |
| OAuthRuns.AnswerWasIssued | src/action_auth.rs:424-534 | with the state check on, any connect, sign-in or token request carries the state that the browser's latest start drew |
| OAuthRuns.ConnectIntegrity | src/action_auth.rs:525-580 | for every provider: the completed callback is a connect exactly if its request carries the marker, and then the browser's latest start asked for a connect; its resource is that start's trimmed one exactly if the request carries it; behind the state check that start issued the state |
| OAuthRuns.ConnectWasRequested | src/action_auth.rs:525-580 | behind the state check no plain or refused start is ever answered by a connect, even after another start's connect was abandoned |
| OAuthRuns.MarkerLasts | src/flow_intent.rs:66-82 | over whole runs: a request carries one start's connect marker exactly as long as no step since was the end of its age, its loss, a delivered start or a delivered completed callback; what ends it ends it for good |
| OAuthRuns.PkcePairing | src/action_auth.rs:433-447 | any token request behind state and PKCE checks: its verifier's SHA-256, base64url-encoded, is the challenge, with method S256, in the URL that carried the returned state, as section 4.6 of RFC 7636 needs; it is sent exactly while its cookie lives |
| OAuthRuns.StateIsSingleUse | src/action_auth.rs:424-431 | once the response to an accepted callback is delivered, no callback to any provider passes with its state again in any continuation |
| OAuthRuns.StateSurvives | src/action_auth.rs:424-431 | after one more step the same callback passes exactly if that step is not a delivery that clears or replaces the state, a loss of the cookie or the end of its age |
| OAuthRuns.StateUsable | src/action_auth.rs:424-431 | over whole runs: the same callback passes later exactly if every step in between spared its state; whatever ends a state ends it for good |
| OAuthRuns.RoundTripCompletes | src/action_auth.rs:139-534 | a start that is delivered and comes back in time ends as it was meant to, with its own resource and verifier |
| OAuthRuns.RefusedConnectLingers | src/action_auth.rs:163-180 | one instance without the state check: a refused connect makes the next callback a connect |
| OAuthRuns.AbandonedConnectTakesOver | src/action_auth.rs:525-580 | the other: a plain start overtaken by an accepted connect that is never finished is answered with that connect's resource |
| OAuthRuns.LatestConnectWins | src/action_auth.rs:525-580 | what both are cases of: without the state check the callback connects whatever the start delivered last asked for |
| SignInEndToEnd.SignInLeaves | src/action_auth.rs:582-628 | a callback that signs in leaves exactly its session cookie, past the clearing of the others in the same response |
| SignInEndToEnd.OthersKeepSession | src/action_auth.rs:536-628 | any other callback leaves the session cookie alone |
| SignInEndToEnd.SignedInUserIsServed | src/action_auth.rs:582-628 | until cookie and row run out, a protected page requested with it loads the resolved user with the stored roles and is served exactly if these match |

## Left out

- Durations.GoDurationRoundTrip: durations below one second other than zero are not covered, because that branch of `go_duration_string` formats a rounded float; every duration the crate writes is a whole number of seconds.
- SessionHistory.BoundedRevocation: the bound includes the time the minting request took, because requests interleave; for a request that takes no time it is exactly one access duration.
- OAuthRuns.StateIsSingleUse: speaks of callbacks sent after the accepted one's response was delivered, because earlier ones may pass; `OAuthRuns.StateUsable` says exactly which.
- SessionHistory.CacheIsGenuine: speaks, as `SessionHistory.LoadedIsGenuine` and `RoleFreshness.RolesAreRecent` do, of runs in which only the crate writes to Redis, because it believes what it finds there.
- Cookie domains and paths, several browsers sharing responses, and cookies written by anyone else.
- Times below a microsecond, the resolution of the stored timestamps, and dates beyond the range of the clock type.
- One database round trip and the clock reading that follows it are one step; so is a cache read and its decoding, and an entry that does not decode is as good as absent.
- The application may delete sessions softly or for good, but not edit their other columns; a deleted row is not undeleted.
- Columns of a session that no decision reads: address, agent, method, account and type.
- JSON payload checks in `authorize` always pass on values built by the crate; the content of claims is carried as text.
- The nonce is issued and cleared but the code never compares it; a state is not bound to a provider; the remembered token preference is cleared but the callback does not act on it. No theorem claims otherwise.
- Text forms: the scheme in front of a header token, form and URL encoding, JSON reading of roles given as a string, parsing of the Cookie header, a semicolon inside a remembered callback URL, and roles claims that are no array.
- Folding of the sign-in options, bounded reading of HTTP bodies, and the drawing of a salt.
- The credentials provider, its CSRF check, LDAP, excluded paths, origin parsing, provider presets and the query merge before a callback: easy claims that would add little.
- The answers of the provider and of the application's callbacks are inputs of a callback request.
- The callback page's HTML and the wording of error replies.
