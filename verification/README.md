# Twitch login provider: a Dafny model

This project models the decision logic of `TwitchLoginProvider`, the Twitch
plug-in for an Angular social-login library. The provider signs a user in
through OAuth2's implicit grant in a popup window. It keeps the access token
in `localStorage` under `TWITCH_token`. It checks that token against Twitch's
validation endpoint and revokes it on sign-out. It turns Twitch's user record
into the library's provider-agnostic `SocialUser`.

The browser and the network are replaced by inputs:

- `localStorage` is a `map<string, string>` (`TokenStore.Storage`). The
  provider only ever touches the key `TWITCH_token`, and every store
  operation is proved to leave all other keys alone.
- Each remote call is an input `Outcome`: `Ok(payload)` or
  `Err(TransportError)`. This is the transport's rule that a status in
  [200, 300) resolves and anything else rejects, seen from the caller.
  `getLoginStatus` and `signOut` also return the list of requests they
  issued (`Transport.Request`). That makes "no request was made" a provable
  statement.
- A promise is a `Promises.Settlement`: `Pending`, `Resolved` or `Rejected`.
  Offering a second settlement to a settled promise changes nothing
  (`Promises.Settle`).
- The popup and the 100 ms interval become a sequence of
  `SignIn.Observation`s, one per timer tick. Each observation holds the
  popup's `closed` flag and the result of reading its location: an
  exception text, a foreign origin, or the caller's own origin with the
  parsed fragment and query string. `SignIn.Tick` is the body of the
  interval callback. `SignIn.Run` applies ticks until polling stops.
  `SignIn.AfterFetch` completes the user request that a redirect carrying a
  token starts.

Modules: `Wrappers` (Option), `Text` (join, split, substring search),
`Query` (query parameter lists and `URLSearchParams.get`), `Twitch`
(constants), `Transport`, `Promises`, `TokenStore`, `Authorization`
(`getAuthorizationUrl`), `Profile` (`getUserInformation`), `Session`
(`getLoginStatus`, `isValid`, `signOut`, `revokeToken`) and `SignIn`.

Several behaviours of the code are easy to misread; the model follows the
code:

- Once the popup is back on the caller's origin, the interval is cleared
  before anything else (twitch-login-provider.ts:98). So a redirect with
  neither a fragment nor an `error` parameter stops polling and leaves the
  sign-in pending forever. It does not keep polling
  (`SignIn.SignInNeverSettles`).
- A fragment without `access_token` rejects with
  `Twitch authentication failed.` (:116-118). The query string is not
  consulted in that case.
- The first user record is read unguarded (:181). An empty user list makes
  the callback throw inside `.then`, so the promise returned by
  `getUserInformation` never settles. `getLoginStatus` and `signIn` stay
  pending too (`Profile.FetchProfile`). An empty list is not a clean
  rejection.
- The closed-popup branch rejects but does not return (:92-95). The same
  tick still reads the popup's location. The first settlement wins, so the
  sign-in stays rejected as closed, but a readable redirect on that tick is
  still acted on: the token is persisted and the profile is requested
  (`SignIn.ClosedTickStillReadsRedirect`).
- `force_verify` is `"true"` only when `forceVerify` is `true`, because of
  `forceVerify || 'false'`. `response_type` is `"token"` when `responseType`
  is unset or empty, because of `responseType || 'token'`.
- A missing `error_description` is printed as `null` by the template string
  (`SignIn.Description`).

Determinism of the authorization request needs no lemma: `AuthorizationUrl`
is a function of the client id and the options alone.

## Model

| member | source | states |
|---|---|---|
| Text.Contains | projects/lib/src/lib/twitch-login-provider.ts:128-130 | `includes` is true exactly when the marker occurs at some position of the exception text |
| Text.Join | projects/lib/src/lib/twitch-login-provider.ts:250-251 | joining no scopes gives the empty string; joining one scope gives that scope; joining several puts a comma in the result |
| Text.JoinSnoc | projects/lib/src/lib/twitch-login-provider.ts:250-251 | for two or more scopes, the joined text is the join of all but the last, a comma, and the last scope, whatever the scopes contain; with Join's empty and single cases this fixes the joined text for every list |
| Text.SplitJoin | projects/lib/src/lib/twitch-login-provider.ts:250-251 | a non-empty comma-free scope list is recovered by splitting its joined form at commas |
| Text.JoinSplit | projects/lib/src/lib/twitch-login-provider.ts:250-251 | splitting any string at commas and joining the parts again gives that string back |
| Query.Get | projects/lib/src/lib/twitch-login-provider.ts:103-104 | `get(key)` is absent exactly when no entry has the key; otherwise it is the value of the first entry with that key |
| Authorization.ScopeValue | projects/lib/src/lib/twitch-login-provider.ts:249-254 | a single scope string passes through unchanged; a list gives its comma-join, so an empty list gives "" and a one-element list its element; a comma-free non-empty list splits back into itself |
| Authorization.AuthorizationParams | projects/lib/src/lib/twitch-login-provider.ts:255-260 | keys in the order client_id, force_verify, redirect_uri, response_type, scope; force_verify is "true" exactly when forceVerify is true and "false" otherwise; response_type is "token" when unset or empty and the given type otherwise; client id, redirect URI and scope are found under their keys |
| Authorization.AuthorizationUrl | projects/lib/src/lib/twitch-login-provider.ts:248-264 | the popup is sent to Twitch's authorize endpoint with exactly the parameters of AuthorizationParams: keys in order, and the client id, force flag ("true" only for an explicit true), redirect URI, response type ("token" by default) and scope value under their keys |
| Authorization.DefaultsAreExplicit | projects/lib/src/lib/twitch-login-provider.ts:257-259 | an unset force flag gives the same request as `false`; an unset response type gives the same request as an empty one |
| TokenStore.Retrieve | projects/lib/src/lib/twitch-login-provider.ts:233-235 | a token is returned exactly when the `TWITCH_token` entry exists, and it is that entry's value |
| TokenStore.Persist | projects/lib/src/lib/twitch-login-provider.ts:225-227 | after persisting t, retrieving gives t; no other key changes |
| TokenStore.Clear | projects/lib/src/lib/twitch-login-provider.ts:240-242 | after clearing, retrieving gives nothing; no other key changes |
| TokenStore.ClearIdempotent | projects/lib/src/lib/twitch-login-provider.ts:240-242 | clearing twice equals clearing once |
| TokenStore.PersistOverwrites | projects/lib/src/lib/twitch-login-provider.ts:225-227 | a second persist replaces the first |
| TokenStore.PersistStored | projects/lib/src/lib/twitch-login-provider.ts:107-110 | persisting the token already stored (the second persist after a successful fetch) changes nothing |
| TokenStore.ClearAfterPersist | projects/lib/src/lib/twitch-login-provider.ts:225-242 | clearing forgets a token persisted just before |
| Promises.Settle | projects/lib/src/lib/twitch-login-provider.ts:92-95 | a settled promise keeps its settlement; only a pending one takes the new one |
| Promises.SettleFirstWins | projects/lib/src/lib/twitch-login-provider.ts:92-95 | once a settlement has been offered, a later offer never changes the outcome |
| Profile.ToSocialUser | projects/lib/src/lib/twitch-login-provider.ts:182-194 | the profile carries provider TWITCH, the fetching token and the record's id, name, email and picture; every other field is empty |
| Profile.ProfileDeterminedByRecord | projects/lib/src/lib/twitch-login-provider.ts:182-194 | every Twitch-shaped profile is the mapping of its own token and record |
| Profile.FetchProfile | projects/lib/src/lib/twitch-login-provider.ts:173-199 | resolves exactly when the request succeeds with at least one record, with the first record's profile; rejects exactly when the request fails, with the same error; stays pending exactly on an empty list |
| Session.UsableToken | projects/lib/src/lib/twitch-login-provider.ts:54-55 | a stored token counts exactly when it is present and not empty |
| Session.IsValid | projects/lib/src/lib/twitch-login-provider.ts:207-219 | a token is valid exactly when the validation request succeeds; a failed request gives false and is not an error |
| Session.GetLoginStatus | projects/lib/src/lib/twitch-login-provider.ts:52-70 | no usable token: rejects "No user is currently logged in with TWITCH", store unchanged, no request. Invalid token: the token is cleared and the call rejects "Access token for TWITCH is not valid" after one validation request. Valid token: store unchanged and the result is the profile fetch's. No other key is touched; a resolved profile carries the stored token; every request it issues is a GET |
| Session.RevokeToken | projects/lib/src/lib/twitch-login-provider.ts:270-284 | resolves exactly when the revoke request succeeds; otherwise rejects with the request's error |
| Session.SignOut | projects/lib/src/lib/twitch-login-provider.ts:147-166 | no usable token: rejects "not logged in" with no request. Otherwise one revoke request is made. Revoke success clears the token and resolves. Revoke failure leaves the store untouched and passes the error on; its only request is a POST to the revoke endpoint |
| Transport.Method | projects/lib/src/lib/twitch-login-provider.ts:179-277 | revocation is sent as POST and the validation and user requests as GET |
| Transport.Endpoint | projects/lib/src/lib/twitch-login-provider.ts:179-277 | validation, user information and revocation go to the validate, users and revoke endpoints respectively, and never to another one |
| Session.SignOutThenStatus | projects/lib/src/lib/twitch-login-provider.ts:149-162 | after an accepted sign-out, a status check rejects "not logged in" without any request |
| Session.InvalidThenNotLoggedIn | projects/lib/src/lib/twitch-login-provider.ts:57-67 | after a status check finds the token invalid, the next check rejects "not logged in" without any request |
| SignIn.HashToken | projects/lib/src/lib/twitch-login-provider.ts:101-106 | a token is found exactly when the fragment is non-empty and its first `access_token` is non-empty |
| SignIn.ProviderError | projects/lib/src/lib/twitch-login-provider.ts:119-124 | a redirect error message exists exactly when the query has a non-empty `error`, and it contains the error description |
| SignIn.Open | projects/lib/src/lib/twitch-login-provider.ts:83-89 | a refused popup rejects "Unable to open Twitch authentication popup window." with no polling; an opened popup starts polling with the sign-in pending; the store is not touched |
| SignIn.Tick | projects/lib/src/lib/twitch-login-provider.ts:90-136 | polling continues exactly on a waiting tick, and a waiting tick changes nothing. A closed popup rejects "window was closed". An exception without the cross-origin marker rejects with its text and closes the popup. A same-origin tick always stops polling and closes the popup. There, a fragment token is persisted and fetched; a fragment without a token rejects; no fragment but an error rejects with the description; otherwise the sign-in stays pending. An earlier settlement is never replaced |
| SignIn.AfterFetch | projects/lib/src/lib/twitch-login-provider.ts:107-115 | the token stays stored whether the user request succeeds or fails; a pending sign-in takes the fetch's settlement |
| SignIn.Run | projects/lib/src/lib/twitch-login-provider.ts:90-136 | a stopped flow takes no more ticks; a settled result is never replaced and no tick resolves; without a fetch the store is unchanged; other keys are never touched; still polling means every tick was a waiting one |
| SignIn.SignIn | projects/lib/src/lib/twitch-login-provider.ts:76-142 | a refused popup rejects and touches nothing; a resolved sign-in yields a Twitch profile whose token is the one stored |
| SignIn.RunSkipsWaiting | projects/lib/src/lib/twitch-login-provider.ts:127-135 | ticks that hit the cross-origin exception or a foreign origin can be dropped without changing the run |
| SignIn.SignInFirstSettlementWins | projects/lib/src/lib/twitch-login-provider.ts:92-125 | once the sign-in is settled, no later tick or user request changes its result |
| SignIn.SignInSucceeds | projects/lib/src/lib/twitch-login-provider.ts:97-112 | waiting ticks, then a redirect with a token, then a user request with records: resolves with the first record's profile for that token; the token is stored and the popup closed |
| SignIn.SignInFetchFails | projects/lib/src/lib/twitch-login-provider.ts:107-115 | the same redirect with a failing user request rejects with that error, and the token stays stored |
| SignIn.SignInClosed | projects/lib/src/lib/twitch-login-provider.ts:92-95 | a popup closed before any redirect with a token rejects "window was closed", stops polling and stores nothing |
| SignIn.SignInProviderError | projects/lib/src/lib/twitch-login-provider.ts:119-124 | a redirect with a query `error` and no fragment rejects with a message containing the error description, and stores nothing |
| SignIn.SignInNeverSettles | projects/lib/src/lib/twitch-login-provider.ts:97-125 | a redirect with neither fragment nor error stops polling and closes the popup, but the sign-in stays pending and nothing is stored |
| SignIn.SignInUnexpectedException | projects/lib/src/lib/twitch-login-provider.ts:127-135 | any other exception rejects with its text, stops polling, closes the popup and stores nothing |
| SignIn.ClosedTickStillReadsRedirect | projects/lib/src/lib/twitch-login-provider.ts:92-112 | on a tick that sees the popup closed and a token in its redirect, the sign-in is rejected as closed but the token is still stored |

## Left out

- The transport, utils.service.ts: the `XMLHttpRequest` plumbing is not modelled. Its only decision, a status in [200, 300) resolves and anything else or a network error rejects, is the `Outcome` input. The exact error texts it produces are not modelled.
- Request details: each request's method and endpoint are modelled (`Transport.Method`, `Transport.Endpoint`), but the model does not build the HTTP headers (`OAuth`/`Bearer` authorization, `Client-Id`, form content type). A `Transport.Request` records only which call was made, with its token and client id.
- Percent-encoding of the authorization URL (`HttpRequest.urlWithParams`) and parsing of fragment and query strings (`URLSearchParams`). Both are library code; parameters are ordered key/value lists, and the fragment and query arrive already parsed.
- JSON parsing of responses. A user record has only the four fields the mapping reads.
- Popup geometry (:78-86). It is floating-point arithmetic on the screen size and has no effect on behaviour.
- Timing: the 100 ms period, and the fact that real ticks are asynchronous. Ticks are a sequence, and the user request completes after the tick that started it.
- Concurrent `signIn` calls sharing the store (last writer wins), and a storage write that throws (quota exceeded).
- `initialize` (:44-46), which resolves at once, and the base-class registration glue.
- Closing the popup is recorded in a flag (`closeCalled`). Its effect on the browser is not modelled.
