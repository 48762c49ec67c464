/** `signIn`: the popup handshake. The popup and the 100 ms timer are
    replaced by a sequence of observations, one per timer tick; each tick is
    a pure step on a `Flow`, and the user request that a successful redirect
    starts is completed by `AfterFetch`. */
module SignIn {
  import opened Wrappers
  import opened Text
  import opened Query
  import opened Twitch
  import opened Transport
  import opened Promises
  import opened TokenStore
  import opened Profile

  /** What reading `popupWindow.location.origin` gives on one tick. */
  datatype Probe =
      /** The read threw; `text` is the exception's `toString()`. */
    | Throws(text: string)
      /** The popup is on some other origin that could be read. */
    | Elsewhere
      /** The popup is back on the caller's origin. `hash` is the parsed
          fragment, `None` when the fragment is empty; `search` is the parsed
          query string. */
    | Home(hash: Option<Params>, search: Params)

  /** One tick: the popup's `closed` flag, and the location probe. The source
      evaluates the probe even when `closed` is set. */
  datatype Observation = Observation(closed: bool, probe: Probe)

  /** The handshake between ticks. `fetching` holds the token whose user
      request is in flight; `closeCalled` records that the provider closed
      the popup itself. */
  datatype Flow = Flow(
    store: Storage,
    result: Settlement<SocialUser>,
    polling: bool,
    closeCalled: bool,
    fetching: Option<string>)

  /** A user request is only ever in flight after polling stopped, and for the
      token the store holds. */
  predicate Consistent(f: Flow) {
    f.fetching.Some? ==> !f.polling && Retrieve(f.store) == f.fetching
  }

  /** The exception polling swallows while the popup is on Twitch's origin. */
  predicate IsCrossOrigin(text: string) {
    Contains(text, CrossOriginMarker)
  }

  /** A tick that leaves everything as it was: the popup is open and not yet
      readable, or readable but elsewhere. */
  predicate Waiting(o: Observation) {
    && !o.closed
    && (o.probe.Elsewhere? || (o.probe.Throws? && IsCrossOrigin(o.probe.text)))
  }

  /** The non-empty `access_token` of a non-empty fragment. */
  function HashToken(hash: Option<Params>): (r: Option<string>)
    ensures r.Some? <==> hash.Some? && Get(hash.value, "access_token").Some?
                         && Get(hash.value, "access_token").value != ""
    ensures r.Some? ==> r == Get(hash.value, "access_token")
  {
    match hash
    case None => None
    case Some(ps) =>
      match Get(ps, "access_token")
      case Some(t) => if t != "" then Some(t) else None
      case None => None
  }

  /** `error_description` as the template string renders it: a missing
      parameter prints as `null`. */
  function Description(search: Params): string {
    Get(search, "error_description").GetOr("null")
  }

  /** The rejection message for a redirect that carries a non-empty `error`. */
  function ProviderError(search: Params): (r: Option<string>)
    ensures r.Some? <==> Get(search, "error").Some? && Get(search, "error").value != ""
    ensures r.Some? ==> Contains(r.value, Description(search))
  {
    match Get(search, "error")
    case Some(e) =>
      if e != "" then
        ContainsInfix(AuthFailedPrefix, Description(search), "");
        assert AuthFailedPrefix + Description(search) + "" == AuthFailedPrefix + Description(search);
        Some(AuthFailedPrefix + Description(search))
      else None
    case None => None
  }

  /** `window.open`: `windowOpened` is false when the browser refused the popup. */
  function Open(s: Storage, windowOpened: bool): (r: Flow)
    ensures r.store == s && r.fetching.None? && !r.closeCalled
    ensures r.polling <==> windowOpened
    ensures windowOpened ==> r.result.Pending?
    ensures !windowOpened ==> r.result == Rejected(Message(PopupBlockedMessage))
    ensures Consistent(r)
  {
    if windowOpened then Flow(s, Pending, true, false, None)
    else Flow(s, Rejected(Message(PopupBlockedMessage)), false, false, None)
  }

  /** The body of the `setInterval` callback. */
  function Tick(f: Flow, o: Observation): (r: Flow)
    requires f.polling && Consistent(f)
    ensures Consistent(r)
    ensures r.polling <==> Waiting(o)
    ensures Waiting(o) ==> r == f
    ensures !f.result.Pending? ==> r.result == f.result
    ensures !r.result.Resolved? || r.result == f.result
    ensures f.result.Pending? && o.closed ==> r.result == Rejected(Message(WindowClosedMessage))
    ensures r.closeCalled <==>
      f.closeCalled || o.probe.Home? || (o.probe.Throws? && !IsCrossOrigin(o.probe.text))
    ensures r.fetching.Some? <==> o.probe.Home? && HashToken(o.probe.hash).Some?
    ensures r.fetching.Some? ==>
      r.fetching == HashToken(o.probe.hash) && r.store == Persist(f.store, r.fetching.value)
    ensures r.fetching.None? ==> r.store == f.store
    ensures f.result.Pending? && !o.closed ==>
      match o.probe
      case Throws(text) =>
        r.result == if IsCrossOrigin(text) then Pending
                    else Rejected(Message(AuthFailedPrefix + text))
      case Elsewhere => r.result.Pending?
      case Home(hash, search) =>
        if hash.Some? then
          r.result == if HashToken(hash).Some? then Pending else Rejected(Message(AuthFailedMessage))
        else
          r.result == if ProviderError(search).Some? then Rejected(Message(ProviderError(search).value))
                      else Pending
  {
    var f1 := if o.closed then f.(polling := false, result := Settle(f.result, Rejected(Message(WindowClosedMessage))))
              else f;
    match o.probe
    case Throws(text) =>
      if IsCrossOrigin(text) then f1
      else f1.(result := Settle(f1.result, Rejected(Message(AuthFailedPrefix + text))),
               polling := false, closeCalled := true)
    case Elsewhere => f1
    case Home(hash, search) =>
      var f2 := f1.(polling := false, closeCalled := true);
      if hash.Some? then
        match HashToken(hash)
        case Some(token) => f2.(store := Persist(f2.store, token), fetching := Some(token))
        case None => f2.(result := Settle(f2.result, Rejected(Message(AuthFailedMessage))))
      else
        match ProviderError(search)
        case Some(m) => f2.(result := Settle(f2.result, Rejected(Message(m))))
        case None => f2
  }

  /** The continuation of `getUserInformation(token)` started by a successful
      redirect: on success the token is persisted again and the profile
      resolves the sign-in; on failure the error rejects it. The token stays
      stored either way. */
  function AfterFetch(f: Flow, users: Outcome<seq<UserRecord>>): (r: Flow)
    requires f.fetching.Some? && Consistent(f)
    ensures r.store == f.store && Retrieve(r.store) == f.fetching
    ensures r.fetching.None? && !r.polling && r.closeCalled == f.closeCalled
    ensures !f.result.Pending? ==> r.result == f.result
    ensures f.result.Pending? ==> r.result == FetchProfile(f.fetching.value, users)
  {
    var token := f.fetching.value;
    var p := FetchProfile(token, users);
    var s := if p.Resolved? then Persist(f.store, token) else f.store;
    StoreDeterminedByToken(f.store, Persist(f.store, token));
    f.(store := s, result := Settle(f.result, p), fetching := None)
  }

  /** Ticks, one per observation, until polling stops. */
  function Run(f: Flow, obs: seq<Observation>): (r: Flow)
    requires Consistent(f)
    ensures Consistent(r)
    ensures !f.polling ==> r == f
    ensures !f.result.Pending? ==> r.result == f.result
    ensures !r.result.Resolved? || r.result == f.result
    ensures f.fetching.None? && r.fetching.None? ==> r.store == f.store
    ensures OthersUntouched(f.store, r.store)
    ensures r.polling ==> forall i :: 0 <= i < |obs| ==> Waiting(obs[i])
    decreases |obs|
  {
    if |obs| == 0 || !f.polling then f
    else
      var r := Run(Tick(f, obs[0]), obs[1..]);
      assert r.polling ==> forall i :: 0 <= i < |obs| ==> Waiting(obs[i]) by {
        if r.polling {
          forall i | 0 <= i < |obs| ensures Waiting(obs[i]) {
            if i > 0 { assert obs[i] == obs[1..][i - 1]; }
          }
        }
      }
      r
  }

  /** The whole `signIn` call: open the popup, poll, then complete the user
      request if a token was found. */
  function SignIn(s: Storage, windowOpened: bool, obs: seq<Observation>,
                  users: Outcome<seq<UserRecord>>): (r: Flow)
    ensures !windowOpened ==> r.result == Rejected(Message(PopupBlockedMessage)) && r.store == s
    ensures OthersUntouched(s, r.store)
    ensures r.fetching.None?
    ensures r.result.Resolved? ==>
      IsTwitchProfile(r.result.value) && Retrieve(r.store) == Some(r.result.value.authToken)
  {
    var f := Run(Open(s, windowOpened), obs);
    if f.fetching.Some? then
      var r := AfterFetch(f, users);
      assert r.result.Resolved? ==> f.result.Pending? by {
        if !f.result.Pending? { assert r.result == f.result; }
      }
      r
    else
      f
  }

  /** Waiting ticks change nothing: the run continues as if they had not
      happened. */
  lemma {:induction false} RunSkipsWaiting(f: Flow, waits: seq<Observation>, rest: seq<Observation>)
    requires Consistent(f) && f.polling
    requires forall i :: 0 <= i < |waits| ==> Waiting(waits[i])
    ensures Run(f, waits + rest) == Run(f, rest)
    decreases |waits|
  {
    if |waits| > 0 {
      assert (waits + rest)[0] == waits[0];
      assert (waits + rest)[1..] == waits[1..] + rest;
      assert Tick(f, waits[0]) == f;
      RunSkipsWaiting(f, waits[1..], rest);
    } else {
      assert waits + rest == rest;
    }
  }

  /** The first settlement wins over the whole handshake, redirect and user
      request included. */
  lemma {:induction false} SignInFirstSettlementWins(
    f: Flow, obs: seq<Observation>, users: Outcome<seq<UserRecord>>)
    requires Consistent(f) && !f.result.Pending?
    ensures var g := Run(f, obs);
      (if g.fetching.Some? then AfterFetch(g, users) else g).result == f.result
  {
  }

  /** A redirect carrying a token, after any number of waiting ticks and
      followed by a user request that returns records, resolves the sign-in
      with the first record; the token is stored. Ticks after the redirect
      are never looked at. */
  lemma SignInSucceeds(s: Storage, waits: seq<Observation>, hash: Params, search: Params,
                       rest: seq<Observation>, records: seq<UserRecord>)
    requires forall i :: 0 <= i < |waits| ==> Waiting(waits[i])
    requires HashToken(Some(hash)).Some?
    requires |records| > 0
    ensures var token := HashToken(Some(hash)).value;
      var r := SignIn(s, true, waits + [Observation(false, Home(Some(hash), search))] + rest, Ok(records));
      && r.result == Resolved(ToSocialUser(token, records[0]))
      && Retrieve(r.store) == Some(token)
      && r.closeCalled
  {
    var o := Observation(false, Home(Some(hash), search));
    RunSkipsWaiting(Open(s, true), waits, [o] + rest);
    assert waits + [o] + rest == waits + ([o] + rest);
  }

  /** The same redirect followed by a failing user request rejects with that
      request's error, and the token persisted before the request stays. */
  lemma SignInFetchFails(s: Storage, waits: seq<Observation>, hash: Params, search: Params,
                         rest: seq<Observation>, e: TransportError)
    requires forall i :: 0 <= i < |waits| ==> Waiting(waits[i])
    requires HashToken(Some(hash)).Some?
    ensures var r := SignIn(s, true, waits + [Observation(false, Home(Some(hash), search))] + rest, Err(e));
      && r.result == Rejected(Failed(e))
      && Retrieve(r.store) == HashToken(Some(hash))
  {
    var o := Observation(false, Home(Some(hash), search));
    RunSkipsWaiting(Open(s, true), waits, [o] + rest);
    assert waits + [o] + rest == waits + ([o] + rest);
  }

  /** A popup the user closes before any redirect with a token rejects the
      sign-in as closed, and nothing is stored. */
  lemma SignInClosed(s: Storage, waits: seq<Observation>, p: Probe, rest: seq<Observation>,
                     users: Outcome<seq<UserRecord>>)
    requires forall i :: 0 <= i < |waits| ==> Waiting(waits[i])
    requires !(p.Home? && HashToken(p.hash).Some?)
    ensures var r := SignIn(s, true, waits + [Observation(true, p)] + rest, users);
      r.result == Rejected(Message(WindowClosedMessage)) && r.store == s && !r.polling
  {
    var o := Observation(true, p);
    RunSkipsWaiting(Open(s, true), waits, [o] + rest);
    assert waits + [o] + rest == waits + ([o] + rest);
  }

  /** A redirect with an `error` in the query string and no fragment rejects
      with a message that embeds the description. */
  lemma SignInProviderError(s: Storage, waits: seq<Observation>, search: Params,
                            rest: seq<Observation>, users: Outcome<seq<UserRecord>>)
    requires forall i :: 0 <= i < |waits| ==> Waiting(waits[i])
    requires Get(search, "error").Some? && Get(search, "error").value != ""
    ensures var r := SignIn(s, true, waits + [Observation(false, Home(None, search))] + rest, users);
      && r.result.Rejected? && r.result.reason.Message?
      && Contains(r.result.reason.text, Description(search))
      && r.store == s
  {
    var o := Observation(false, Home(None, search));
    RunSkipsWaiting(Open(s, true), waits, [o] + rest);
    assert waits + [o] + rest == waits + ([o] + rest);
  }

  /** A redirect with neither fragment nor `error` stops polling and closes
      the popup, yet never settles the sign-in: no later tick runs. */
  lemma SignInNeverSettles(s: Storage, waits: seq<Observation>, search: Params,
                           rest: seq<Observation>, users: Outcome<seq<UserRecord>>)
    requires forall i :: 0 <= i < |waits| ==> Waiting(waits[i])
    requires ProviderError(search).None?
    ensures var r := SignIn(s, true, waits + [Observation(false, Home(None, search))] + rest, users);
      r.result.Pending? && !r.polling && r.closeCalled && r.store == s
  {
    var o := Observation(false, Home(None, search));
    RunSkipsWaiting(Open(s, true), waits, [o] + rest);
    assert waits + [o] + rest == waits + ([o] + rest);
  }

  /** An exception other than the cross-origin one rejects the sign-in with
      its text, stops polling and closes the popup. */
  lemma SignInUnexpectedException(s: Storage, waits: seq<Observation>, text: string,
                                  rest: seq<Observation>, users: Outcome<seq<UserRecord>>)
    requires forall i :: 0 <= i < |waits| ==> Waiting(waits[i])
    requires !IsCrossOrigin(text)
    ensures var r := SignIn(s, true, waits + [Observation(false, Throws(text))] + rest, users);
      r.result == Rejected(Message(AuthFailedPrefix + text)) && !r.polling && r.closeCalled && r.store == s
  {
    var o := Observation(false, Throws(text));
    RunSkipsWaiting(Open(s, true), waits, [o] + rest);
    assert waits + [o] + rest == waits + ([o] + rest);
  }

  /** The closed branch does not return: on the tick that sees the popup
      closed, a readable redirect with a token is still acted on. The token is
      stored and requested, but the sign-in stays rejected as closed. */
  lemma ClosedTickStillReadsRedirect(s: Storage, hash: Params, search: Params,
                                     users: Outcome<seq<UserRecord>>)
    requires HashToken(Some(hash)).Some?
    ensures var r := SignIn(s, true, [Observation(true, Home(Some(hash), search))], users);
      && r.result == Rejected(Message(WindowClosedMessage))
      && Retrieve(r.store) == HashToken(Some(hash))
  {
  }
}
