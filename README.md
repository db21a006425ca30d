# Cognito OIDC session logic, modelled in Dafny

This project models the session logic of a small Express + React app. The app
signs users in against an Amazon Cognito user pool with the OAuth 2.0
authorization-code flow and PKCE (RFC 7636). It has three parts:

- **The auth flow controller** (`server/src/controllers/auth.ts`). Four route
  handlers (login, callback, logout, refresh) write an Express response. That
  means setting and clearing cookies with exact attributes, sending a JSON
  error, or redirecting. The client's cookie jar is modelled as a
  `map<string, Cookie>` field of a `Response` object, and the handlers are
  methods of an `AuthController` class. The identity provider (openid-client)
  is a `Provider` object. Its answers are fixed functions of what it is asked,
  and it logs every network call, so "no exchange happened" and "the exchange
  got this verifier" can both be stated.
- **The authentication gate** (`server/src/middleware/auth.ts`). The issuer
  and key-set addresses are built from the pool's region and id. The
  `authenticated` middleware rejects a request with 401 unless jose's
  `jwtVerify` accepts its `idToken` cookie. On success it sets `req.user` and
  calls `next`. `jwtVerify` is a `TokenVerifier` oracle object.
- **The refresh scheduler** (`client/src/hooks/use-refresh.ts`). This is the
  `useRefresh` effect, its cleanup and the `refreshTimeout` slot. It is a
  `RefreshHook` class that holds the slot, the browser's pending timers, the
  next timer id and the fetches that fired timers made. Its methods are
  proved against pure step functions. Lemmas show that, over any sequence of
  effect runs, cleanups and timer firings, at most one timer is pending, that
  timer is the slot's, and it is pending only when the last effect saw a
  loaded, signed-in user.

Files: `wrappers.dfy` (Option, Result), `http.dfy` (request and response,
cookie attributes, JavaScript truthiness), `uri.dfy` (`encodeURIComponent`
and its inverse), `controller.dfy`, `gate.dfy`, `scheduler.dfy`.

Modelling notes:
- A request's query and cookie values are `Param`: a string, or a non-string
  (an array or object from the query parser, or a JSON cookie from
  cookie-parser). Every non-string value is truthy, so the callback's check
  on lines 33-40 of `server/src/controllers/auth.ts` reduces to "both present
  and non-empty strings".
- A failed token exchange or refresh rejects the async handler. This is
  modelled as `Completion.Threw`, with nothing written to the response. So on
  a failed exchange the `code_verifier` cookie stays, because
  `server/src/controllers/auth.ts:51` is never reached: nothing clears it on
  that path.
- `res.redirect(url)` sends status 302 (`Http.FOUND`).
- The configuration (`COGNITO_REDIRECT_URI`, `COGNITO_DOMAIN`,
  `COGNITO_CLIENT_ID`, `COGNITO_REGION`, `COGNITO_USER_POOL_ID`, and whether
  `NODE_ENV` is `production`) is fixed when a controller or a `PoolConfig` is
  built.
- Timer ids handed out by `setTimeout` are positive integers (the model's
  counter starts at 1), so `if (refreshTimeout.current)` is the same test as
  "the slot is not null".
- A firing never re-arms the timer (`Scheduler.OneFetchPerArming`). So the
  hook refreshes at most once per effect run that sees a signed-in user,
  60 s after it, and only if no cleanup or later effect run cancels that
  timer first (`Scheduler.NoFetchAfterCleanup`). Unless `me` or `loading` changes, a page that stays open refreshes
  once and not again, which is less than the hook's comment, "refreshes the
  authentication token just before it expires", suggests.
- `BrowserSends` is an assumption about the environment, not a part of the
  server: the browser returns every stored cookie on the next request, and
  cookie-parser hands each one to the handlers as a plain string. The
  end-to-end lemmas use it to turn the jar a response leaves into the cookies
  of the next request.

## Model

| member | source | states |
|---|---|---|
| `Controller.AuthController.Login` | server/src/controllers/auth.ts:14-27 | Stores the given verifier in a `code_verifier` cookie with exactly `{ httpOnly: true }`. Builds the authorization request with scope `openid email profile`, method `S256` and the challenge derived from that same verifier. Redirects (302) to the provider's URL for that request. No other cookie changes. |
| `Controller.AuthController.Callback` | server/src/controllers/auth.ts:29-79 | If the check fails: 400 `Invalid request`, no provider call, jar unchanged. Otherwise exactly one exchange is made, with the redirect URI, the query and the cookie's verifier. On success the verifier cookie is gone, the three token cookies are set as `IssueSession` states, every other cookie is kept, and the browser is redirected to `/me`. On failure the handler throws: nothing is sent and the jar (including `code_verifier`) is unchanged. |
| `Controller.AuthController.Logout` | server/src/controllers/auth.ts:81-103 | Revokes the `refreshToken` cookie's value iff that cookie is truthy, at most one call. Always returns normally, whatever revocation answers. Clears exactly `accessToken`, `idToken` and `refreshToken`, keeps every other cookie unchanged, and redirects to `LogoutUrl(domain, clientId)`. |
| `Controller.AuthController.Refresh` | server/src/controllers/auth.ts:105-129 | With no truthy `refreshToken` cookie: 401 `Unauthorized`, no provider call, jar unchanged. Otherwise exactly one refresh grant with that token. On success the jar is `RefreshSession` of the old one and the browser is redirected to `/me`. On failure the handler throws and nothing changes. |
| `Controller.ValidateCallback` | server/src/controllers/auth.ts:33-40 | The check passes iff the `code` query and the `code_verifier` cookie are both present, both strings and both non-empty. When it passes, the result is the cookie's verifier. |
| `Controller.IssueSession` | server/src/controllers/auth.ts:53-72 | The jar gains exactly `accessToken`, `idToken` and `refreshToken`. The first two have `maxAge` 3 600 000, the third 432 000 000. All three are `httpOnly`, `sameSite` `lax`, and `secure` iff production. Every other cookie is unchanged. |
| `Controller.RefreshSession` | server/src/controllers/auth.ts:114-126 | Only `accessToken` and `idToken` are (re)written, with the same one-hour attributes as the callback. The `refreshToken` cookie is present afterwards iff it was before, with its value and attributes unchanged. Every other cookie is kept. |
| `Controller.ClearSession` | server/src/controllers/auth.ts:91-93 | Removes exactly the three token cookies and keeps every other cookie (such as `code_verifier`) with its value. |
| `Controller.LogoutUrlValue` | server/src/controllers/auth.ts:96-100 | The logout address is `domain + "/logout?client_id=" + clientId + "&logout_uri=" + "http%3A%2F%2Flocalhost%3A8000%2Fme"`. |
| `Controller.EncodedPostLogoutRedirect` | server/src/controllers/auth.ts:98-100 | `encodeURIComponent("http://localhost:8000/me")` is `http%3A%2F%2Flocalhost%3A8000%2Fme`. |
| `Controller.LogoutUriDecodes` | server/src/controllers/auth.ts:98-100 | The `logout_uri` parameter decodes back to `http://localhost:8000/me`. |
| `Controller.SessionAllOrNothing` | server/src/controllers/auth.ts:51-126 | A callback leaves all three token cookies present and a logout leaves none. A refresh keeps a complete session complete and never changes whether a `refreshToken` cookie exists. |
| `Controller.LogoutUndoesCallback` | server/src/controllers/auth.ts:53-93 | Logging out after a callback leaves the jar a logout alone leaves, minus the `code_verifier` cookie the callback used up. Logging out after the token cookies `IssueSession` writes, or after a refresh, leaves exactly the jar a logout alone leaves. |
| `Controller.CallbackUsesLoginVerifier` | server/src/controllers/auth.ts:18-40 | After login has stored a verifier, a callback with a non-empty code passes the check with exactly that verifier. With no verifier cookie, the check always fails. |
| `Controller.SignIn` | server/src/controllers/auth.ts:14-79 | For a login followed by the callback the browser then makes: the authorization request's challenge is derived from the verifier, and the single exchange carries that same verifier. On success the session is complete and the verifier cookie is gone. On failure the verifier cookie is still there. |
| `Controller.Provider.Callback` | server/src/controllers/auth.ts:43-49 | The exchange answers with the provider's reply to exactly this request and logs one exchange call. |
| `Controller.Provider.Refresh` | server/src/controllers/auth.ts:112 | The refresh grant answers with the provider's reply and logs one refresh call. |
| `Controller.Provider.Revoke` | server/src/controllers/auth.ts:83-89 | Revocation answers with the provider's reply and logs one revocation call. |
| `Uri.EncodeUriComponent` | server/src/controllers/auth.ts:98-100 | `encodeURIComponent`: the output holds only unreserved characters and `%`, and is at least as long as the input. |
| `Uri.DecodeEncode` | server/src/controllers/auth.ts:98-100 | `decodeURIComponent(encodeURIComponent(s)) == s` for every string of Unicode scalar values. Non-ASCII characters go through UTF-8. |
| `Uri.EncodeAddress` | server/src/controllers/auth.ts:98-100 | For `scheme://host:port/path` whose parts need no escaping, the encoding escapes exactly the `:` and `/` separators, as `%3A` and `%2F`. |
| `Gate.JwksUrlExtendsIssuer` | server/src/middleware/auth.ts:12-32 | The key-set address is the issuer followed by `/.well-known/jwks.json`, so the issuer is a proper prefix of it. |
| `Gate.GateRequest` | server/src/middleware/auth.ts:29-32 | The verification is asked for this token, with issuer `"https://cognito-idp." + region + ".amazonaws.com/" + poolId`, audience the client id, and the key set at the issuer plus `/.well-known/jwks.json`. |
| `Gate.TokenVerifier.JwtVerify` | server/src/middleware/auth.ts:29-32 | Answers with the verifier's reply for the request and logs it. |
| `Gate.Authenticated` | server/src/middleware/auth.ts:18-40 | With no truthy `idToken` cookie: 401 `Unauthorized`, the verifier is never called, `next` is not called and `req.user` is untouched. Otherwise exactly one verification, as `GateRequest` builds it. On success `req.user` is exactly the payload, `next` is called and nothing is sent. Every kind of failure gives the same 401 `Unauthorized` without `next`. No cookie changes in any case. |
| `Scheduler.RefreshHook.constructor` | client/src/hooks/use-refresh.ts:12 | The slot starts null and no timer is pending. |
| `Scheduler.RefreshHook.Effect` | client/src/hooks/use-refresh.ts:15-37 | The old slot's timer is no longer pending. Afterwards a timer is pending iff `!loading && me`, and that timer is the slot's, with delay `REFRESH_INTERVAL`. The new state is `EffectStep` of the old. |
| `Scheduler.RefreshHook.Cleanup` | client/src/hooks/use-refresh.ts:39-43 | Nothing is pending afterwards and the slot keeps its (now stale) id. The new state is `CleanupStep` of the old. |
| `Scheduler.RefreshHook.Fire` | client/src/hooks/use-refresh.ts:21-36 | A pending timer's firing leaves nothing pending. It makes exactly one POST to `/auth/refresh` with credentials, and returns normally whether the fetch answers or fails. |
| `Scheduler.RefreshHook.SetTimeout` | client/src/hooks/use-refresh.ts:34-36 | Given that every pending id is below the counter, hands out the counter's next id, which no pending timer holds, registers it with the given delay and advances the counter. |
| `Scheduler.RefreshHook.ClearTimeout` | client/src/hooks/use-refresh.ts:16 | Removes that id from the pending timers; it does nothing for an id that is not pending. |
| `Scheduler.EffectArmsIffSignedIn` | client/src/hooks/use-refresh.ts:15-37 | One effect run keeps the invariant and cancels the slot's old timer. Afterwards a timer is pending iff `!loading && me`, and any pending timer is new and has the refresh delay. The slot holds that new timer's id when signed in and is null otherwise. |
| `Scheduler.CleanupCancels` | client/src/hooks/use-refresh.ts:39-43 | A cleanup keeps the invariant, leaves nothing pending and does not null the slot. The next effect's clearTimeout of that slot is then a no-op. |
| `Scheduler.StepKeepsInv` | client/src/hooks/use-refresh.ts:15-43 | An effect run, a cleanup or a timer firing keeps the invariant: at most one timer is pending, and it is the slot's. |
| `Scheduler.RunKeepsInv` | client/src/hooks/use-refresh.ts:15-43 | After any sequence of effect runs, cleanups and firings, at most one timer is pending, and it is the slot's. |
| `Scheduler.StepPendingOnlyWhenSignedIn` | client/src/hooks/use-refresh.ts:20-36 | Only an effect run with a loaded, signed-in user can leave a timer pending that was not pending before, and only such a run can make an empty set of pending timers non-empty. |
| `Scheduler.PendingOnlyWhenSignedIn` | client/src/hooks/use-refresh.ts:15-44 | After any sequence of events, a timer is pending only if the last effect run had `!loading && me`. |
| `Scheduler.FetchesOnlyFromFirings` | client/src/hooks/use-refresh.ts:21-32 | Over any sequence of events, fetches are only appended, each is the refresh call, and there are at most as many as firings. |
| `Scheduler.FetchesCountPendingFirings` | client/src/hooks/use-refresh.ts:21-32 | Over any sequence of events, exactly one fetch per firing of a timer that is still pending: a cancelled or already fired id fetches nothing. |
| `Scheduler.NoFetchAfterCleanup` | client/src/hooks/use-refresh.ts:39-43 | After a cleanup, no timer is pending and nothing is fetched, whatever fires, until an effect run sees a loaded, signed-in user. |
| `Scheduler.OneFetchPerArming` | client/src/hooks/use-refresh.ts:21-36 | Once the armed timer fires (the state `fired`), exactly one refresh fetch is made and nothing is pending; no further fetch happens until an effect run sees a loaded, signed-in user. |
| `Scheduler.RefreshesBeforeExpiry` | client/src/hooks/use-refresh.ts:4 | `REFRESH_INTERVAL` is 60 000 ms, strictly less than the 3 600 000 ms lifetime of the access and identity token cookies. |

## Left out

- openid-client internals are not modelled. They are foreign code over the network and crypto. `generators.codeVerifier()` (randomness) is a parameter of `Login`. `generators.codeChallenge`, `authorizationUrl`, `callback`, `refresh` and `revoke` are oracle functions of `Provider`. `callbackParams(req)` is taken to be the request's query.
- jose's `jwtVerify` and `createRemoteJWKSet` are not modelled: signature checking, expiry, key fetching and key caching are an oracle. The key set is identified by its address.
- That a verifier is never reused across two logins is not modelled: it rests on the randomness of the generator.
- `tokens.claims()` and the logging on auth.ts lines 74-76, and every `console.log` / `console.error`, are left out. So is the possibility that `claims()` throws when the provider returns no identity token. The model's `TokenSet` always carries all three tokens, as Cognito's authorization-code grant returns them.
- Express plumbing is not modelled: route registration (auth.ts lines 5-12, all as GET), `server/src/main.ts` (CORS, cookie-parser, the `/me` projection, the 500 handler, `listen`) and `server/src/lib/open-id.ts` (startup discovery). A thrown handler ends at `Completion.Threw`.
- Cookies are modelled at the level of the jar, not of Set-Cookie headers. `res.clearCookie` is removal from the jar. Paths, expiry dates and header order are not modelled. `Response` does not refuse writes after a response has been sent.
- `BrowserSends` reads every stored value as a plain string. cookie-parser's decoding of `j:`-prefixed JSON cookies is not modelled there, though handlers accept non-string cookie values through `Param`.
- `Uri.EncodeUriComponent` works on strings of Unicode scalar values, while JavaScript strings are UTF-16. A lone surrogate cannot occur in the model, so the `URIError` that `encodeURIComponent` throws on one is not modelled. The only string the core encodes is a constant address.
- `Gate.JwksUrl` is the unparsed address string. `new URL(...)` normalises it and throws at module load on a malformed configuration; neither is modelled.
- `Gate.Authenticated`: `next()` is a returned flag (true means called once), not a callback. Nothing after `next` is modelled.
- The refresh hook's React scheduling is not modelled. Effects and cleanups are taken as arbitrary sequences; React, `useMe` and `client/src/app.tsx` would drive them on dependency changes and unmount. `(me, loading)` are free inputs. Timer delays are recorded, not elapsed. The fetch's response is ignored, as in the source.
- The client sends `POST /auth/refresh` and `POST /auth/logout`, and the latter expects JSON, while the server registers GET routes that redirect. This mismatch is not reconciled. The model gives each handler's behaviour whatever the HTTP method.
- Refresh-token rotation, timeouts, retries, and clearing `code_verifier` on a failed exchange do not exist in the code and are not modelled.
