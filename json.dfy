/** JSON documents as Python's `json.loads` produces them: objects keep the insertion order of their keys. */
module Json {
  import opened Wrappers

  /** A number is kept as its literal text: nothing here computes with it. */
  datatype Json =
    | Null
    | Bool(b: bool)
    | Num(literal: string)
    | Str(s: string)
    | Arr(items: seq<Json>)
    | Obj(members: seq<(string, Json)>)

  /** `k` is one of the keys of the member list. */
  predicate HasKey(ms: seq<(string, Json)>, k: string)
  {
    exists j | 0 <= j < |ms| :: ms[j].0 == k
  }

  /** `d[k]` for a dict `d`: the value of the first member named `k`. */
  function Get(ms: seq<(string, Json)>, k: string): (r: Option<Json>)
    ensures r.Some? <==> HasKey(ms, k)
    ensures r.Some? ==> exists j | 0 <= j < |ms| :: ms[j] == (k, r.value)
  {
    if |ms| == 0 then None
    else if ms[0].0 == k then Some(ms[0].1)
    else
      var r := Get(ms[1..], k);
      assert forall j | 0 <= j < |ms| - 1 :: ms[1..][j] == ms[j + 1];
      r
  }

  /** `d[k] = v` for a dict `d`: an existing key keeps its place, a new key goes last. */
  function Put(ms: seq<(string, Json)>, k: string, v: Json): (r: seq<(string, Json)>)
    ensures !HasKey(ms, k) ==> r == ms + [(k, v)]
    ensures Get(r, k) == Some(v)
    ensures forall k' | k' != k :: Get(r, k') == Get(ms, k')
  {
    if |ms| == 0 then [(k, v)]
    else if ms[0].0 == k then [(k, v)] + ms[1..]
    else
      HasKeyCons(ms, k);
      var rest := Put(ms[1..], k, v);
      assert ([ms[0]] + rest)[1..] == rest;
      assert !HasKey(ms, k) ==> [ms[0]] + rest == ms + [(k, v)];
      [ms[0]] + rest
  }

  /** A key is in a non-empty member list when it names the first member or is in the rest. */
  lemma HasKeyCons(ms: seq<(string, Json)>, k: string)
    requires |ms| > 0
    ensures HasKey(ms, k) <==> ms[0].0 == k || HasKey(ms[1..], k)
  {
    if HasKey(ms[1..], k) {
      var j :| 0 <= j < |ms[1..]| && ms[1..][j].0 == k;
      assert ms[j + 1].0 == k;
    }
    if HasKey(ms, k) && ms[0].0 != k {
      var j :| 0 <= j < |ms| && ms[j].0 == k;
      assert ms[1..][j - 1].0 == k;
    }
  }

  /** `d.values()`, in key order. */
  function Values(ms: seq<(string, Json)>): (r: seq<Json>)
    ensures |r| == |ms| && forall j | 0 <= j < |ms| :: r[j] == ms[j].1
  {
    seq(|ms|, j requires 0 <= j < |ms| => ms[j].1)
  }
}
