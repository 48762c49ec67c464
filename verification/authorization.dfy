/** Construction of the authorization request the popup is opened on
    (`getAuthorizationUrl`): the endpoint and its ordered query parameters. */
module Authorization {
  import opened Wrappers
  import opened Text
  import opened Query
  import opened Twitch

  /** `scopes: string | string[]`. */
  datatype Scopes = Single(scope: string) | Many(list: seq<string>)

  /** `TwitchInitOptions`; the optional fields are `Option`s. */
  datatype InitOptions = InitOptions(
    redirectUri: string,
    forceVerify: Option<bool>,
    responseType: Option<string>,
    scopes: Scopes)

  /** The request as handed to the browser: endpoint plus parameters, in order. */
  datatype AuthorizationRequest = AuthorizationRequest(endpoint: string, params: Params)

  const AuthorizationKeys: seq<string> :=
    ["client_id", "force_verify", "redirect_uri", "response_type", "scope"]

  /** The `scope` parameter: a list is comma-joined, a string passes through.
      A joined list still carries every scope, recoverable by splitting. */
  function ScopeValue(s: Scopes): (r: string)
    ensures s.Single? ==> r == s.scope
    ensures s.Many? ==> r == Join(s.list, ',')
    ensures s.Many? && |s.list| == 0 ==> r == ""
    ensures s.Many? && |s.list| == 1 ==> r == s.list[0]
    ensures s.Many? && |s.list| >= 1 && (forall i :: 0 <= i < |s.list| ==> ',' !in s.list[i])
      ==> Split(r, ',') == s.list
  {
    match s
    case Single(scope) => scope
    case Many(list) =>
      var joined := Join(list, ',');
      assert |list| >= 1 && (forall i :: 0 <= i < |list| ==> ',' !in list[i]) ==>
        Split(joined, ',') == list by {
        if |list| >= 1 && (forall i :: 0 <= i < |list| ==> ',' !in list[i]) {
          SplitJoin(list, ',');
        }
      }
      joined
  }

  /** `forceVerify || 'false'`: only an explicit `true` asks for re-verification. */
  function ForceVerifyValue(o: InitOptions): string {
    if o.forceVerify == Some(true) then "true" else "false"
  }

  /** `responseType || 'token'`: an unset or empty response type means `token`. */
  function ResponseTypeValue(o: InitOptions): string {
    if o.responseType.Some? && o.responseType.value != "" then o.responseType.value else "token"
  }

  /** The five authorization parameters with the given values, in order;
      each key is found with its own value. */
  function ParamList(clientId: string, forceVerify: string, redirectUri: string,
                     responseType: string, scope: string): (r: Params)
    ensures HasKeys(r, AuthorizationKeys)
    ensures Get(r, "client_id") == Some(clientId)
    ensures Get(r, "force_verify") == Some(forceVerify)
    ensures Get(r, "redirect_uri") == Some(redirectUri)
    ensures Get(r, "response_type") == Some(responseType)
    ensures Get(r, "scope") == Some(scope)
  {
    var r := [("client_id", clientId), ("force_verify", forceVerify), ("redirect_uri", redirectUri),
              ("response_type", responseType), ("scope", scope)];
    assert HasKeys(r, AuthorizationKeys) by {
      assert r[0].0 == AuthorizationKeys[0] && r[1].0 == AuthorizationKeys[1];
      assert r[2].0 == AuthorizationKeys[2] && r[3].0 == AuthorizationKeys[3];
      assert r[4].0 == AuthorizationKeys[4];
    }
    assert Get(r, "client_id") == Some(clientId) by { GetFirst(r, 0); }
    assert Get(r, "force_verify") == Some(forceVerify) by { GetFirst(r, 1); }
    assert Get(r, "redirect_uri") == Some(redirectUri) by { GetFirst(r, 2); }
    assert Get(r, "response_type") == Some(responseType) by { GetFirst(r, 3); }
    assert Get(r, "scope") == Some(scope) by { GetFirst(r, 4); }
    r
  }

  /** The parameters, in the order the source sets them. */
  function AuthorizationParams(clientId: string, o: InitOptions): (r: Params)
    ensures HasKeys(r, AuthorizationKeys)
    ensures Get(r, "client_id") == Some(clientId)
    ensures Get(r, "redirect_uri") == Some(o.redirectUri)
    ensures Get(r, "force_verify") == Some("true") <==> o.forceVerify == Some(true)
    ensures Get(r, "force_verify") == Some("false") <==> o.forceVerify != Some(true)
    ensures o.responseType.None? || o.responseType == Some("") ==> Get(r, "response_type") == Some("token")
    ensures o.responseType.Some? && o.responseType.value != "" ==>
      Get(r, "response_type") == o.responseType
    ensures Get(r, "scope") == Some(ScopeValue(o.scopes))
  {
    ParamList(clientId, ForceVerifyValue(o), o.redirectUri, ResponseTypeValue(o), ScopeValue(o.scopes))
  }

  /** `getAuthorizationUrl`, before percent-encoding. */
  function AuthorizationUrl(clientId: string, o: InitOptions): (r: AuthorizationRequest)
    ensures r.endpoint == AuthUrl
    ensures r.params == AuthorizationParams(clientId, o)
    ensures HasKeys(r.params, AuthorizationKeys)
    ensures Get(r.params, "client_id") == Some(clientId)
    ensures Get(r.params, "force_verify") == Some(ForceVerifyValue(o))
    ensures Get(r.params, "redirect_uri") == Some(o.redirectUri)
    ensures Get(r.params, "response_type") == Some(ResponseTypeValue(o))
    ensures Get(r.params, "scope") == Some(ScopeValue(o.scopes))
  {
    AuthorizationRequest(AuthUrl, AuthorizationParams(clientId, o))
  }

  /** Two option sets that differ only in an unset versus `false` force flag,
      or an unset versus empty response type, produce the same request. */
  lemma DefaultsAreExplicit(clientId: string, o: InitOptions)
    ensures AuthorizationUrl(clientId, o.(forceVerify := None)) ==
            AuthorizationUrl(clientId, o.(forceVerify := Some(false)))
    ensures AuthorizationUrl(clientId, o.(responseType := None)) ==
            AuthorizationUrl(clientId, o.(responseType := Some("")))
  {
    var f0, f1 := o.(forceVerify := None), o.(forceVerify := Some(false));
    assert ForceVerifyValue(f0) == ForceVerifyValue(f1);
    assert AuthorizationParams(clientId, f0) == AuthorizationParams(clientId, f1);
    var r0, r1 := o.(responseType := None), o.(responseType := Some(""));
    assert ResponseTypeValue(r0) == ResponseTypeValue(r1);
    assert AuthorizationParams(clientId, r0) == AuthorizationParams(clientId, r1);
  }
}
