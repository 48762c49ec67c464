/** The Twitch user record the provider reads and the provider-agnostic
    `SocialUser` it builds from it (`getUserInformation`). */
module Profile {
  import opened Wrappers
  import opened Twitch
  import opened Transport
  import opened Promises

  /** The fields of one entry of the Helix `users` response the provider reads;
      `email` is absent unless the email scope was granted. */
  datatype UserRecord = UserRecord(
    id: string,
    displayName: string,
    email: Option<string>,
    profileImageUrl: string)

  datatype SocialUser = SocialUser(
    provider: string,
    id: string,
    name: string,
    email: Option<string>,
    authToken: string,
    idToken: string,
    authorizationCode: string,
    photoUrl: string,
    firstName: string,
    lastName: string,
    response: string)

  /** A profile in the shape this provider produces: its own identity and
      every field Twitch does not supply left as the empty string. */
  predicate IsTwitchProfile(u: SocialUser) {
    && u.provider == ProviderId
    && u.idToken == "" && u.authorizationCode == ""
    && u.firstName == "" && u.lastName == "" && u.response == ""
  }

  /** What a profile says about the Twitch user it was built from. */
  function RecordOf(u: SocialUser): UserRecord {
    UserRecord(u.id, u.name, u.email, u.photoUrl)
  }

  /** The mapping of one user record, with the token that fetched it. */
  function ToSocialUser(token: string, rec: UserRecord): (r: SocialUser)
    ensures IsTwitchProfile(r)
    ensures r.authToken == token
    ensures RecordOf(r) == rec
  {
    SocialUser(ProviderId, rec.id, rec.displayName, rec.email, token, "", "", rec.profileImageUrl, "", "", "")
  }

  /** A Twitch profile is determined by its token and the record it carries. */
  lemma ProfileDeterminedByRecord(u: SocialUser)
    requires IsTwitchProfile(u)
    ensures ToSocialUser(u.authToken, RecordOf(u)) == u
  {
  }

  /** The promise `getUserInformation(token)` returns, given the outcome of
      the user request. The first record is taken unguarded: on an empty list
      the callback throws, and the promise never settles. */
  function FetchProfile(token: string, users: Outcome<seq<UserRecord>>): (r: Settlement<SocialUser>)
    ensures r.Resolved? <==> users.Ok? && |users.payload| > 0
    ensures r.Resolved? ==>
      IsTwitchProfile(r.value) && r.value.authToken == token && RecordOf(r.value) == users.payload[0]
    ensures r.Rejected? <==> users.Err?
    ensures r.Rejected? ==> r.reason == Failed(users.error)
    ensures r.Pending? <==> users == Ok([])
  {
    match users
    case Ok(records) => if |records| == 0 then Pending else Resolved(ToSocialUser(token, records[0]))
    case Err(e) => Rejected(Failed(e))
  }
}
