/** The provider's use of `localStorage`: one entry, under the key
    `TWITCH_token`, holding the raw access token. The rest of storage is
    modelled too so that "no other key is touched" can be stated. */
module TokenStore {
  import opened Wrappers
  import opened Twitch

  type Storage = map<string, string>

  const TokenKey: string := ProviderId + "_token"

  /** `r` agrees with `s` on every key except the token key. */
  ghost predicate OthersUntouched(s: Storage, r: Storage) {
    forall k :: k != TokenKey ==> (k in s <==> k in r) && (k in s ==> s[k] == r[k])
  }

  /** `retrieveToken`: the stored token, if any. */
  function Retrieve(s: Storage): (r: Option<string>)
    ensures r.Some? <==> TokenKey in s
    ensures r.Some? ==> s[TokenKey] == r.value
  {
    if TokenKey in s then Some(s[TokenKey]) else None
  }

  /** `persistToken`: stores `token`, overwriting any previous one. */
  function Persist(s: Storage, token: string): (r: Storage)
    ensures Retrieve(r) == Some(token)
    ensures OthersUntouched(s, r)
  {
    s[TokenKey := token]
  }

  /** `clearToken`: removes the token; clearing an empty store is no error. */
  function Clear(s: Storage): (r: Storage)
    ensures Retrieve(r) == None
    ensures OthersUntouched(s, r)
  {
    s - {TokenKey}
  }

  /** Clearing twice is clearing once. */
  lemma ClearIdempotent(s: Storage)
    ensures Clear(Clear(s)) == Clear(s)
  {
  }

  /** The second of two persists wins. */
  lemma PersistOverwrites(s: Storage, a: string, b: string)
    ensures Persist(Persist(s, a), b) == Persist(s, b)
  {
  }

  /** Persisting the token already stored changes nothing. */
  lemma PersistStored(s: Storage, token: string)
    requires Retrieve(s) == Some(token)
    ensures Persist(s, token) == s
  {
  }

  /** Clearing forgets whatever was persisted before. */
  lemma ClearAfterPersist(s: Storage, token: string)
    ensures Clear(Persist(s, token)) == Clear(s)
  {
  }

  /** Only the token entry decides what a store holds besides the others:
      two stores that agree elsewhere and hold the same token are equal. */
  lemma StoreDeterminedByToken(s: Storage, r: Storage)
    requires OthersUntouched(s, r)
    requires Retrieve(s) == Retrieve(r)
    ensures s == r
  {
    assert s.Keys == r.Keys;
  }
}
