/** Query parameters as an ordered key/value list, the shape both Angular's
    `HttpParams` (when building a request) and `URLSearchParams` (when reading
    the redirect) present to the provider. Percent-encoding is not modelled. */
module Query {
  import opened Wrappers

  type Params = seq<(string, string)>

  /** Entry `i` is the first entry of `ps` whose key is `key`. */
  predicate FirstWithKey(ps: Params, key: string, i: int) {
    0 <= i < |ps| && ps[i].0 == key && forall j :: 0 <= j < i ==> ps[j].0 != key
  }

  /** `URLSearchParams.get(key)`: the value of the FIRST entry with `key`. */
  function Get(ps: Params, key: string): (r: Option<string>)
    ensures r.None? <==> forall i :: 0 <= i < |ps| ==> ps[i].0 != key
    ensures r.Some? ==> exists i :: FirstWithKey(ps, key, i) && ps[i].1 == r.value
    decreases |ps|
  {
    if |ps| == 0 then None
    else if ps[0].0 == key then
      assert FirstWithKey(ps, key, 0);
      Some(ps[0].1)
    else
      var r := Get(ps[1..], key);
      if r.Some? then
        var i :| FirstWithKey(ps[1..], key, i) && ps[1..][i].1 == r.value;
        assert FirstWithKey(ps, key, i + 1) by {
          forall j | 0 <= j < i + 1 ensures ps[j].0 != key {
            if j > 0 { assert ps[j] == ps[1..][j - 1]; }
          }
        }
        r
      else
        assert forall i :: 0 <= i < |ps| ==> ps[i].0 != key by {
          forall i | 0 <= i < |ps| ensures ps[i].0 != key {
            if i > 0 { assert ps[i] == ps[1..][i - 1]; }
          }
        }
        r
  }

  /** The entry at `i` is what `Get` finds when no earlier entry has its key. */
  lemma GetFirst(ps: Params, i: int)
    requires 0 <= i < |ps|
    requires forall j :: 0 <= j < i ==> ps[j].0 != ps[i].0
    ensures Get(ps, ps[i].0) == Some(ps[i].1)
  {
    var r := Get(ps, ps[i].0);
    var k :| FirstWithKey(ps, ps[i].0, k) && ps[k].1 == r.value;
    assert k == i;
  }

  /** The keys of `ps` are `keys`, in that order. */
  predicate HasKeys(ps: Params, keys: seq<string>) {
    |ps| == |keys| && forall i :: 0 <= i < |ps| ==> ps[i].0 == keys[i]
  }
}
