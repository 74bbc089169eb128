/** The query string of the page's URL, as `URLSearchParams` reads it. */
module Query {
  import opened Wrappers

  /** Decoded `key=value` pairs in the order they appear in the URL. */
  type Params = seq<(string, string)>

  /** `new URLSearchParams(search).get(key)`: the value of the first pair with that key. */
  function Get(q: Params, key: string): (r: Option<string>)
    ensures r.None? <==> forall i :: 0 <= i < |q| ==> q[i].0 != key
    ensures r.Some? ==> exists i :: 0 <= i < |q| && q[i] == (key, r.value) &&
                          forall j :: 0 <= j < i ==> q[j].0 != key
    decreases |q|
  {
    if q == [] then None
    else if q[0].0 == key then Some(q[0].1)
    else
      var r := Get(q[1..], key);
      assert forall j :: 1 <= j < |q| ==> q[j] == q[1..][j - 1];
      r
  }
}
