/** `getLoginStatus` and `signOut`: each reads the stored token, consumes the
    outcomes of the remote calls it makes, and leaves a settled promise, the
    new store and the list of requests it issued. */
module Session {
  import opened Wrappers
  import opened Twitch
  import opened Transport
  import opened Promises
  import opened TokenStore
  import opened Profile

  /** What one call leaves behind. */
  datatype Call<+T> = Call(result: Settlement<T>, store: Storage, requests: seq<Request>)

  /** The stored token as the source's `if (accessToken)` sees it: an absent
      or empty token does not count. */
  function UsableToken(s: Storage): (r: Option<string>)
    ensures r.Some? <==> Retrieve(s).Some? && Retrieve(s).value != ""
    ensures r.Some? ==> Retrieve(s) == r
  {
    match Retrieve(s)
    case Some(t) => if t != "" then Some(t) else None
    case None => None
  }

  /** `isValid`: the validation request decides validity by success alone;
      a failed request means "invalid", never an error. */
  function IsValid(validation: Outcome<()>): (r: bool)
    ensures r <==> validation.Ok?
  {
    match validation
    case Ok(_) => true
    case Err(_) => false
  }

  /** `getLoginStatus`. */
  function GetLoginStatus(clientId: string, s: Storage, validation: Outcome<()>,
                          users: Outcome<seq<UserRecord>>): (r: Call<SocialUser>)
    ensures UsableToken(s).None? ==>
      r == Call(Rejected(Message(NotLoggedInMessage)), s, [])
    ensures UsableToken(s).Some? && !validation.Ok? ==>
      && r.result == Rejected(Message(InvalidTokenMessage))
      && Retrieve(r.store) == None
      && r.requests == [Validate(UsableToken(s).value)]
    ensures UsableToken(s).Some? && validation.Ok? ==>
      && r.store == s
      && r.result == FetchProfile(UsableToken(s).value, users)
      && r.requests == [Validate(UsableToken(s).value), UserInfo(clientId, UsableToken(s).value)]
    ensures forall q | q in r.requests :: Method(q) == "GET"
    ensures OthersUntouched(s, r.store)
    ensures r.result.Resolved? ==> Retrieve(r.store).Some? && r.result.value.authToken == Retrieve(r.store).value
  {
    match UsableToken(s)
    case None => Call(Rejected(Message(NotLoggedInMessage)), s, [])
    case Some(token) =>
      if IsValid(validation) then
        Call(FetchProfile(token, users), s, [Validate(token), UserInfo(clientId, token)])
      else
        Call(Rejected(Message(InvalidTokenMessage)), Clear(s), [Validate(token)])
  }

  /** `revokeToken`: resolves when the revoke request succeeds and passes its
      error on otherwise. */
  function RevokeToken(revocation: Outcome<()>): (r: Settlement<()>)
    ensures r.Resolved? <==> revocation.Ok?
    ensures revocation.Err? ==> r == Rejected(Failed(revocation.error))
  {
    match revocation
    case Ok(_) => Resolved(())
    case Err(e) => Rejected(Failed(e))
  }

  /** `signOut`: the token is cleared only once the provider confirmed the
      revocation, so a failed sign-out can be retried. */
  function SignOut(clientId: string, s: Storage, revocation: Outcome<()>): (r: Call<()>)
    ensures UsableToken(s).None? ==>
      r == Call(Rejected(Message(NotLoggedInMessage)), s, [])
    ensures UsableToken(s).Some? ==> r.requests == [Revoke(clientId, UsableToken(s).value)]
    ensures UsableToken(s).Some? && revocation.Ok? ==>
      r.result == Resolved(()) && Retrieve(r.store) == None
    ensures revocation.Err? ==> r.store == s
    ensures UsableToken(s).Some? && revocation.Err? ==> r.result == Rejected(Failed(revocation.error))
    ensures forall q | q in r.requests :: Endpoint(q) == RevokeUrl && Method(q) == "POST"
    ensures OthersUntouched(s, r.store)
  {
    match UsableToken(s)
    case None => Call(Rejected(Message(NotLoggedInMessage)), s, [])
    case Some(token) =>
      var p := RevokeToken(revocation);
      Call(p, if p.Resolved? then Clear(s) else s, [Revoke(clientId, token)])
  }

  /** A sign-out that the provider accepted leaves nobody logged in: the next
      status check rejects without issuing any request. */
  lemma SignOutThenStatus(clientId: string, s: Storage, validation: Outcome<()>,
                          users: Outcome<seq<UserRecord>>)
    requires UsableToken(s).Some?
    ensures var out := SignOut(clientId, s, Ok(()));
      GetLoginStatus(clientId, out.store, validation, users) ==
        Call(Rejected(Message(NotLoggedInMessage)), out.store, [])
  {
  }

  /** A status check that finds the token invalid leaves nobody logged in: a
      second check rejects with "not logged in" and makes no request. */
  lemma InvalidThenNotLoggedIn(clientId: string, s: Storage, users: Outcome<seq<UserRecord>>,
                               e: TransportError, validation: Outcome<()>)
    requires UsableToken(s).Some?
    ensures var first := GetLoginStatus(clientId, s, Err(e), users);
      GetLoginStatus(clientId, first.store, validation, users) ==
        Call(Rejected(Message(NotLoggedInMessage)), first.store, [])
  {
  }
}
