/** `URLSearchParams` as an ordered list of key/value pairs, with the three operations the list
    pages use: `get`, `set` and `delete`. */
module SearchParams {
  import opened Wrappers
  import Seqs
  import JsValues

  type Params = seq<(string, string)>

  predicate HasKey(p: Params, key: string)
  {
    exists i :: 0 <= i < |p| && p[i].0 == key
  }

  /** `get(key)`: the value of the first pair with `key`. */
  function Get(p: Params, key: string): (r: Option<string>)
    ensures r.None? <==> !HasKey(p, key)
    ensures r.Some? ==> exists i :: 0 <= i < |p| && p[i] == (key, r.value) && !HasKey(p[..i], key)
  {
    if |p| == 0 then None
    else if p[0].0 == key then
      assert p[..0] == [];
      Some(p[0].1)
    else
      var r := Get(p[1..], key);
      HasKeyOfTail(p, key);
      assert r.Some? ==> exists i :: 0 <= i < |p| && p[i] == (key, r.value) && !HasKey(p[..i], key) by {
        if r.Some? {
          var i :| 0 <= i < |p[1..]| && p[1..][i] == (key, r.value) && !HasKey(p[1..][..i], key);
          assert p[i + 1] == (key, r.value);
          assert p[..i + 1][1..] == p[1..][..i];
          HasKeyOfTail(p[..i + 1], key);
        }
      }
      r
  }

  function OtherKey(key: string): ((string, string)) -> bool
  {
    (kv: (string, string)) => kv.0 != key
  }

  /** The pairs whose key is not `key`, in order. */
  function Without(p: Params, key: string): Params
  {
    Seqs.Filter(p, OtherKey(key))
  }

  /** `delete(key)`: every pair with `key` is removed. */
  function Delete(p: Params, key: string): (r: Params)
    ensures !HasKey(r, key)
  {
    Without(p, key)
  }

  /** `set(key, value)`: the first pair with `key` takes the new value in place and later pairs
      with `key` are removed; without such a pair the new pair goes on the end. */
  function Set(p: Params, key: string, value: string): (r: Params)
    ensures Get(r, key) == Some(value)
    ensures !HasKey(p, key) ==> r == p + [(key, value)]
  {
    if |p| == 0 then [(key, value)]
    else if p[0].0 == key then
      HasKeyOfTail(p, key);
      GetCons((key, value), Delete(p[1..], key), key);
      [(key, value)] + Delete(p[1..], key)
    else
      var t := Set(p[1..], key, value);
      GetCons(p[0], t, key);
      HasKeyOfTail(p, key);
      ConsAppend(p, (key, value));
      [p[0]] + t
  }

  lemma ConsAppend(p: Params, kv: (string, string))
    requires |p| > 0
    ensures [p[0]] + (p[1..] + [kv]) == p + [kv]
  {
    assert [p[0]] + p[1..] == p;
  }

  lemma HasKeyOfTail(p: Params, key: string)
    requires |p| > 0
    ensures HasKey(p, key) <==> p[0].0 == key || HasKey(p[1..], key)
  {
    if HasKey(p[1..], key) {
      var i :| 0 <= i < |p[1..]| && p[1..][i].0 == key;
      assert p[i + 1].0 == key;
    }
    if HasKey(p, key) && p[0].0 != key {
      var i :| 0 <= i < |p| && p[i].0 == key;
      assert p[1..][i - 1] == p[i];
    }
  }

  /** `set` leaves every other key's pairs exactly as they were, in order. */
  lemma {:induction false} SetKeepsOthers(p: Params, key: string, value: string, other: string)
    requires other != key
    ensures Without(Set(p, key, value), key) == Without(p, key)
    ensures Get(Set(p, key, value), other) == Get(p, other)
  {
    if |p| == 0 {
    } else if p[0].0 == key {
      Seqs.FilterConcat([(key, value)], Delete(p[1..], key), OtherKey(key));
      Seqs.FilterIdempotent(p[1..], OtherKey(key));
      Seqs.FilterConcat([p[0]], p[1..], OtherKey(key));
      assert [p[0]] + p[1..] == p;
      DeleteKeepsOthers(p[1..], key, other);
    } else {
      SetKeepsOthers(p[1..], key, value, other);
      Seqs.FilterConcat([p[0]], Set(p[1..], key, value), OtherKey(key));
      Seqs.FilterConcat([p[0]], p[1..], OtherKey(key));
      assert [p[0]] + p[1..] == p;
    }
  }

  /** `set` leaves the first value of every other key as it was. */
  lemma SetKeepsAllOthers(p: Params, key: string, value: string)
    ensures forall other :: other != key ==> Get(Set(p, key, value), other) == Get(p, other)
  {
    forall other | other != key
      ensures Get(Set(p, key, value), other) == Get(p, other)
    {
      SetKeepsOthers(p, key, value, other);
    }
  }

  /** `delete` leaves every other key's first value as it was. */
  lemma {:induction false} DeleteKeepsOthers(p: Params, key: string, other: string)
    requires other != key
    ensures Get(Delete(p, key), other) == Get(p, other)
  {
    if |p| > 0 {
      DeleteKeepsOthers(p[1..], key, other);
      DeleteCons(p, key);
      if p[0].0 != key {
        GetCons(p[0], Delete(p[1..], key), other);
      }
    }
  }

  /** One step of `delete`. */
  lemma DeleteCons(p: Params, key: string)
    requires |p| > 0
    ensures Delete(p, key) == if p[0].0 == key then Delete(p[1..], key) else [p[0]] + Delete(p[1..], key)
  {
    assert OtherKey(key)(p[0]) == (p[0].0 != key);
  }

  /** One step of `get`. */
  lemma GetCons(x: (string, string), rest: Params, key: string)
    ensures Get([x] + rest, key) == if x.0 == key then Some(x.1) else Get(rest, key)
  {
    assert ([x] + rest)[1..] == rest;
  }

  /** `Number(searchParams.get('page')) || 0`, the list pages' current page. `Number(null)` is
      zero, so a missing parameter gives page 0, and so does a value that reads as zero or NaN. */
  function PageNumber(p: Params, toNumber: string -> JsValues.JsNumber): (n: JsValues.JsNumber)
    ensures n != JsValues.NaN
    ensures Get(p, "page").None? ==> n == JsValues.FromInt(0)
    ensures Get(p, "page").Some? ==>
              var read := toNumber(Get(p, "page").value);
              if JsValues.Truthy(read) then n == read else n == JsValues.FromInt(0)
  {
    match Get(p, "page")
    case None => JsValues.FromInt(0)
    case Some(v) => JsValues.OrZero(toNumber(v))
  }
}
