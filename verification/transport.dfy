/** The HTTP transport seen from the provider: each remote call either
    succeeds with a payload or fails with an error the provider may pass on.
    Which of the two happens is an input of the model. */
module Transport {
  import opened Twitch

  /** The error a failed request rejects with (its status or network reason). */
  datatype TransportError = TransportError(message: string)

  datatype Outcome<+T> = Ok(payload: T) | Err(error: TransportError)

  /** The remote calls the provider issues, with the credential each carries. */
  datatype Request =
    | Validate(token: string)
    | UserInfo(clientId: string, token: string)
    | Revoke(clientId: string, token: string)

  /** The HTTP method each call is sent with: only revocation posts. */
  function Method(r: Request): (m: string)
    ensures m == "POST" <==> r.Revoke?
    ensures m == "GET" <==> !r.Revoke?
  {
    if r.Revoke? then "POST" else "GET"
  }

  /** The endpoint each call is sent to; the three calls go to three
      different URLs. */
  function Endpoint(r: Request): (url: string)
    ensures url == ValidateUrl <==> r.Validate?
    ensures url == UserUrl <==> r.UserInfo?
    ensures url == RevokeUrl <==> r.Revoke?
  {
    match r
    case Validate(_) => ValidateUrl
    case UserInfo(_, _) => UserUrl
    case Revoke(_, _) => RevokeUrl
  }
}
