/**
 * The browser's URLSearchParams, as the search components use it: an
 * ordered list of key/value pairs filled by successive `set` calls and read
 * back with `get`. The form-urlencoded text that `toString` produces is not
 * modelled; a navigation target keeps the pairs themselves.
 */
module UrlParams {
  import opened Common

  datatype Param = Param(key: string, value: string)

  /** Where `navigate` goes: a path and its query parameters (`/search?…`). */
  datatype Target = Target(path: string, query: seq<Param>)

  /** `params.get(k)`: the value of the first pair with key `k`, if any. */
  function GetParam(ps: seq<Param>, k: string): (r: Option<string>)
    ensures r.Some? <==> exists i :: 0 <= i < |ps| && ps[i].key == k
  {
    if ps == [] then None
    else if ps[0].key == k then Some(ps[0].value)
    else GetParam(ps[1..], k)
  }

  /** `get` on a concatenation looks in the first part, then in the second. */
  lemma {:induction false} GetParamAppend(a: seq<Param>, b: seq<Param>, k: string)
    ensures GetParam(a + b, k) == if GetParam(a, k).Some? then GetParam(a, k) else GetParam(b, k)
  {
    if a == [] {
      assert a + b == b;
    } else {
      assert (a + b)[1..] == a[1..] + b;
      GetParamAppend(a[1..], b, k);
    }
  }

  /** Every pair whose key is not `k`, in order. */
  function WithoutKey(ps: seq<Param>, k: string): (r: seq<Param>)
    ensures forall i :: 0 <= i < |r| ==> r[i].key != k
    ensures |r| <= |ps|
  {
    if ps == [] then []
    else (if ps[0].key == k then [] else [ps[0]]) + WithoutKey(ps[1..], k)
  }

  /**
   * `params.set(k, v)`: the first pair with key `k` gets value `v` and the
   * later ones with that key are dropped; when there is none, the pair is
   * appended.
   */
  function SetParam(ps: seq<Param>, k: string, v: string): seq<Param> {
    if ps == [] then [Param(k, v)]
    else if ps[0].key == k then [Param(k, v)] + WithoutKey(ps[1..], k)
    else [ps[0]] + SetParam(ps[1..], k, v)
  }

  function CountKey(ps: seq<Param>, k: string): nat {
    if ps == [] then 0 else (if ps[0].key == k then 1 else 0) + CountKey(ps[1..], k)
  }

  lemma {:induction false} WithoutKeyCount(ps: seq<Param>, k: string)
    ensures CountKey(WithoutKey(ps, k), k) == 0
  {
    if ps != [] {
      WithoutKeyCount(ps[1..], k);
      var rest := WithoutKey(ps[1..], k);
      if ps[0].key == k {
        assert WithoutKey(ps, k) == rest;
      } else {
        assert WithoutKey(ps, k) == [ps[0]] + rest;
        assert ([ps[0]] + rest)[1..] == rest;
      }
    }
  }

  lemma {:induction false} GetWithoutKey(ps: seq<Param>, k: string, j: string)
    requires j != k
    ensures GetParam(WithoutKey(ps, k), j) == GetParam(ps, j)
  {
    if ps != [] {
      GetWithoutKey(ps[1..], k, j);
      var rest := WithoutKey(ps[1..], k);
      if ps[0].key == k {
        assert WithoutKey(ps, k) == rest;
      } else {
        assert WithoutKey(ps, k) == [ps[0]] + rest;
        assert ([ps[0]] + rest)[1..] == rest;
      }
    }
  }

  /** After `set(k, v)`, `get(k)` answers `v`. */
  lemma {:induction false} SetThenGet(ps: seq<Param>, k: string, v: string)
    ensures GetParam(SetParam(ps, k, v), k) == Some(v)
  {
    if ps != [] && ps[0].key != k {
      SetThenGet(ps[1..], k, v);
      assert ([ps[0]] + SetParam(ps[1..], k, v))[1..] == SetParam(ps[1..], k, v);
    }
  }

  /** `set(k, v)` leaves what `get` answers for every other key unchanged. */
  lemma {:induction false} SetThenGetOther(ps: seq<Param>, k: string, v: string, j: string)
    requires j != k
    ensures GetParam(SetParam(ps, k, v), j) == GetParam(ps, j)
  {
    if ps != [] {
      if ps[0].key == k {
        GetWithoutKey(ps[1..], k, j);
        assert ([Param(k, v)] + WithoutKey(ps[1..], k))[1..] == WithoutKey(ps[1..], k);
      } else {
        SetThenGetOther(ps[1..], k, v, j);
        assert ([ps[0]] + SetParam(ps[1..], k, v))[1..] == SetParam(ps[1..], k, v);
      }
    }
  }

  /** After `set(k, v)` exactly one pair has key `k`. */
  lemma {:induction false} SetLeavesOneKey(ps: seq<Param>, k: string, v: string)
    ensures CountKey(SetParam(ps, k, v), k) == 1
  {
    if ps == [] {
    } else if ps[0].key == k {
      WithoutKeyCount(ps[1..], k);
      assert ([Param(k, v)] + WithoutKey(ps[1..], k))[1..] == WithoutKey(ps[1..], k);
    } else {
      SetLeavesOneKey(ps[1..], k, v);
      assert ([ps[0]] + SetParam(ps[1..], k, v))[1..] == SetParam(ps[1..], k, v);
    }
  }

  /** Setting a key that is not there yet appends the pair at the end. */
  lemma {:induction false} SetAbsentAppends(ps: seq<Param>, k: string, v: string)
    requires GetParam(ps, k).None?
    ensures SetParam(ps, k, v) == ps + [Param(k, v)]
  {
    if ps != [] {
      assert GetParam(ps[1..], k).None?;
      SetAbsentAppends(ps[1..], k, v);
      assert ps == [ps[0]] + ps[1..];
    }
  }

  /** `new URLSearchParams()` and its `set`. */
  class SearchParams {
    var entries: seq<Param>

    constructor ()
      ensures entries == []
    {
      entries := [];
    }

    method Set(k: string, v: string)
      modifies this
      ensures entries == SetParam(old(entries), k, v)
    {
      entries := SetParam(entries, k, v);
    }
  }
}
