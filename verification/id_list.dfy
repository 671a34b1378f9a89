/** Operations the slice reducers perform on an ordered list of records keyed by an integer
    `id`: `findIndex`, `find`, replace-in-place, upsert and filter-out-by-id. Records of every
    entity are handled through an id projection `idOf`. */
module IdList {
  import opened Wrappers
  import Seqs
  import JsValues

  /** Some record of `items` carries `id`. */
  predicate HasId<T>(items: seq<T>, id: int, idOf: T -> int)
  {
    exists i :: 0 <= i < |items| && idOf(items[i]) == id
  }

  /** No two records of `items` share an id. */
  predicate UniqueIds<T>(items: seq<T>, idOf: T -> int)
  {
    forall i, j :: 0 <= i < |items| && 0 <= j < |items| && idOf(items[i]) == idOf(items[j]) ==> i == j
  }

  /** `k` is the first position of `items` carrying `id`. */
  predicate IsFirstMatch<T>(items: seq<T>, k: int, id: int, idOf: T -> int)
  {
    0 <= k < |items| && idOf(items[k]) == id && forall i :: 0 <= i < k ==> idOf(items[i]) != id
  }

  /** The update relation: the first record carrying `x`'s id is overwritten by `x` in place and
      nothing else moves; without such a record the list is unchanged. */
  ghost predicate ReplacedFirstMatch<T>(before: seq<T>, after: seq<T>, x: T, idOf: T -> int)
  {
    (forall k :: IsFirstMatch(before, k, idOf(x), idOf) ==> after == before[k := x])
    && (!HasId(before, idOf(x), idOf) ==> after == before)
  }

  /** The upsert relation: replace in place when `x`'s id is present, append `x` otherwise. */
  ghost predicate Upserted<T>(before: seq<T>, after: seq<T>, x: T, idOf: T -> int)
  {
    if HasId(before, idOf(x), idOf) then ReplacedFirstMatch(before, after, x, idOf)
    else Seqs.Appended(before, after, x)
  }

  /** The test `item.id !== id` of the delete handlers. */
  function NotId<T>(id: int, idOf: T -> int): T -> bool
  {
    (y: T) => idOf(y) != id
  }

  /** The delete relation: `after` is `before.filter(item => item.id !== id)`, so no record with
      `id` survives, every other record survives in its original order, and nothing is added. */
  ghost predicate RemovedId<T>(before: seq<T>, after: seq<T>, id: int, idOf: T -> int)
  {
    after == Seqs.Filter(before, NotId(id, idOf))
    && !HasId(after, id, idOf)
    && (forall i :: 0 <= i < |before| && idOf(before[i]) != id ==> before[i] in after)
    && (forall i :: 0 <= i < |after| ==> after[i] in before)
    && (!HasId(before, id, idOf) ==> after == before)
  }

  /** `items.findIndex(item => item.id === id)`: the first position carrying `id`, or -1. */
  function FindIndex<T>(items: seq<T>, id: int, idOf: T -> int): (k: int)
    ensures -1 <= k < |items|
    ensures k == -1 <==> !HasId(items, id, idOf)
    ensures k >= 0 ==> idOf(items[k]) == id
    ensures k >= 0 ==> forall i :: 0 <= i < k ==> idOf(items[i]) != id
  {
    if |items| == 0 then -1
    else if idOf(items[0]) == id then 0
    else
      var k := FindIndex(items[1..], id, idOf);
      assert HasId(items, id, idOf) ==> HasId(items[1..], id, idOf) by {
        if HasId(items, id, idOf) {
          var i :| 0 <= i < |items| && idOf(items[i]) == id;
          assert i > 0 && items[1..][i - 1] == items[i];
        }
      }
      if k == -1 then -1 else k + 1
  }

  /** `items.find(item => item.id === id)`: the first record carrying `id`, if any. */
  function Find<T>(items: seq<T>, id: int, idOf: T -> int): (r: Option<T>)
    ensures r.None? <==> !HasId(items, id, idOf)
    ensures r.Some? ==> idOf(r.value) == id
    ensures r.Some? ==> exists k :: 0 <= k < |items| && items[k] == r.value
                          && forall i :: 0 <= i < k ==> idOf(items[i]) != id
  {
    var k := FindIndex(items, id, idOf);
    if k == -1 then None else Some(items[k])
  }

  /** `items.find(item => item.id === n)` for a JavaScript number `n`, such as a route
      parameter read with `Number`: only an integral `n` can match a record id. */
  function FindByNumber<T>(items: seq<T>, n: JsValues.JsNumber, idOf: T -> int): (r: Option<T>)
    ensures r.Some? ==> JsValues.FromInt(idOf(r.value)) == n
    ensures r.Some? ==> r == Find(items, idOf(r.value), idOf)
    ensures r.None? <==> forall k :: 0 <= k < |items| ==> JsValues.FromInt(idOf(items[k])) != n
  {
    match JsValues.AsInteger(n)
    case None =>
      assert forall k :: 0 <= k < |items| ==> JsValues.FromInt(idOf(items[k])) != n by {
        forall k | 0 <= k < |items| ensures JsValues.FromInt(idOf(items[k])) != n {
          JsValues.StrictEqualsInt(n, idOf(items[k]));
        }
      }
      None
    case Some(i) =>
      assert forall k :: 0 <= k < |items| ==> (JsValues.FromInt(idOf(items[k])) == n <==> idOf(items[k]) == i) by {
        forall k | 0 <= k < |items| ensures JsValues.FromInt(idOf(items[k])) == n <==> idOf(items[k]) == i {
          JsValues.StrictEqualsInt(n, idOf(items[k]));
        }
      }
      Find(items, i, idOf)
  }

  /** The update handlers: overwrite the first record whose id is `x`'s, if there is one. */
  function ReplaceFirst<T>(items: seq<T>, x: T, idOf: T -> int): (r: seq<T>)
    ensures |r| == |items|
    ensures !HasId(items, idOf(x), idOf) ==> r == items
    ensures HasId(items, idOf(x), idOf) ==>
              var k := FindIndex(items, idOf(x), idOf);
              r[k] == x && forall i :: 0 <= i < |items| && i != k ==> r[i] == items[i]
    ensures forall i :: 0 <= i < |items| ==> idOf(r[i]) == idOf(items[i])
    ensures ReplacedFirstMatch(items, r, x, idOf)
  {
    var k := FindIndex(items, idOf(x), idOf);
    if k == -1 then items else items[k := x]
  }

  /** The fetch-by-id handlers: replace the first record with `x`'s id, or append `x`. */
  function Upsert<T>(items: seq<T>, x: T, idOf: T -> int): (r: seq<T>)
    ensures HasId(items, idOf(x), idOf) ==> r == ReplaceFirst(items, x, idOf)
    ensures !HasId(items, idOf(x), idOf) ==> r == items + [x]
    ensures Find(r, idOf(x), idOf) == Some(x)
    ensures Upserted(items, r, x, idOf)
  {
    var k := FindIndex(items, idOf(x), idOf);
    if k == -1 then
      var r := items + [x];
      assert FindIndex(r, idOf(x), idOf) == |items| by {
        assert idOf(r[|items|]) == idOf(x);
        assert forall i :: 0 <= i < |items| ==> r[i] == items[i];
      }
      r
    else
      items[k := x]
  }

  /** The delete handlers: `items.filter(item => item.id !== id)`. */
  function RemoveId<T>(items: seq<T>, id: int, idOf: T -> int): (r: seq<T>)
    ensures !HasId(r, id, idOf)
    ensures forall i :: 0 <= i < |items| && idOf(items[i]) != id ==> items[i] in r
    ensures forall i :: 0 <= i < |r| ==> r[i] in items
    ensures !HasId(items, id, idOf) ==> r == items
    ensures RemovedId(items, r, id, idOf)
  {
    var keep := NotId(id, idOf);
    if !HasId(items, id, idOf) then
      Seqs.FilterKeepsAll(items, keep);
      Seqs.Filter(items, keep)
    else
      Seqs.Filter(items, keep)
  }

  /** Removing by id keeps the surviving records in their original order. */
  lemma RemoveIdConcat<T>(a: seq<T>, b: seq<T>, id: int, idOf: T -> int)
    ensures RemoveId(a + b, id, idOf) == RemoveId(a, id, idOf) + RemoveId(b, id, idOf)
  {
    var keep := NotId(id, idOf);
    Seqs.FilterConcat(a, b, keep);
    if !HasId(a + b, id, idOf) {
      Seqs.FilterKeepsAll(a + b, keep);
    }
    if !HasId(a, id, idOf) {
      Seqs.FilterKeepsAll(a, keep);
    }
    if !HasId(b, id, idOf) {
      Seqs.FilterKeepsAll(b, keep);
    }
  }

  /** Upserting the same record twice is the same as upserting it once. */
  lemma UpsertIdempotent<T>(items: seq<T>, x: T, idOf: T -> int)
    ensures Upsert(Upsert(items, x, idOf), x, idOf) == Upsert(items, x, idOf)
  {
    var once := Upsert(items, x, idOf);
    var k := FindIndex(once, idOf(x), idOf);
    assert once[k] == x;
    assert once[k := x] == once;
  }

  /** Removing the same id twice is the same as removing it once. */
  lemma RemoveIdIdempotent<T>(items: seq<T>, id: int, idOf: T -> int)
    ensures RemoveId(RemoveId(items, id, idOf), id, idOf) == RemoveId(items, id, idOf)
  {
  }

  /** Looking up a different id is not affected by an upsert. */
  lemma {:induction false} FindOtherAfterUpsert<T>(items: seq<T>, x: T, id: int, idOf: T -> int)
    requires id != idOf(x)
    ensures Find(Upsert(items, x, idOf), id, idOf) == Find(items, id, idOf)
  {
    FindOtherAfterReplace(items, x, id, idOf);
    if !HasId(items, idOf(x), idOf) {
      FindOtherAfterAppend(items, x, id, idOf);
    }
  }

  /** Looking up a different id is not affected by a replace-in-place. */
  lemma FindOtherAfterReplace<T>(items: seq<T>, x: T, id: int, idOf: T -> int)
    requires id != idOf(x)
    ensures Find(ReplaceFirst(items, x, idOf), id, idOf) == Find(items, id, idOf)
  {
    var r := ReplaceFirst(items, x, idOf);
    var k := FindIndex(items, id, idOf);
    var k' := FindIndex(r, id, idOf);
    if HasId(items, idOf(x), idOf) {
      var j := FindIndex(items, idOf(x), idOf);
      assert forall i :: 0 <= i < |items| && i != j ==> r[i] == items[i];
      if k >= 0 {
        assert forall i :: 0 <= i < k ==> idOf(r[i]) != id;
        assert idOf(r[k]) == id;
      } else {
        assert !HasId(r, id, idOf);
      }
    }
  }

  /** Looking up a different id is not affected by appending `x`. */
  lemma FindOtherAfterAppend<T>(items: seq<T>, x: T, id: int, idOf: T -> int)
    requires id != idOf(x)
    ensures Find(items + [x], id, idOf) == Find(items, id, idOf)
  {
    var r := items + [x];
    var k := FindIndex(items, id, idOf);
    var k' := FindIndex(r, id, idOf);
    assert forall i :: 0 <= i < |items| ==> r[i] == items[i];
    if k >= 0 {
      assert idOf(r[k]) == id;
      assert k' == k;
    } else {
      assert !HasId(r, id, idOf);
    }
  }

  /** Removing one id does not change what a lookup of another id finds. */
  lemma {:induction false} FindOtherAfterRemove<T>(items: seq<T>, id: int, other: int, idOf: T -> int)
    requires other != id
    ensures Find(RemoveId(items, id, idOf), other, idOf) == Find(items, other, idOf)
  {
    if |items| > 0 {
      var head := items[0];
      assert items == [head] + items[1..];
      RemoveIdConcat([head], items[1..], id, idOf);
      FindOtherAfterRemove(items[1..], id, other, idOf);
      var rest := RemoveId(items[1..], id, idOf);
      if idOf(head) == id {
        assert RemoveId([head], id, idOf) == [];
        assert [] + rest == rest;
        FindSkipsHead(items, other, idOf);
      } else {
        assert RemoveId([head], id, idOf) == [head];
        FindSkipsHead([head] + rest, other, idOf);
        assert ([head] + rest)[1..] == rest;
        FindSkipsHead(items, other, idOf);
      }
    }
  }

  /** A lookup either finds the head or continues in the tail. */
  lemma FindSkipsHead<T>(items: seq<T>, id: int, idOf: T -> int)
    requires |items| > 0
    ensures Find(items, id, idOf) ==
              if idOf(items[0]) == id then Some(items[0]) else Find(items[1..], id, idOf)
  {
  }

  /** Upserting keeps record ids unique. */
  lemma UpsertKeepsUnique<T>(items: seq<T>, x: T, idOf: T -> int)
    requires UniqueIds(items, idOf)
    ensures UniqueIds(Upsert(items, x, idOf), idOf)
  {
    var r := Upsert(items, x, idOf);
    if !HasId(items, idOf(x), idOf) {
      assert forall i :: 0 <= i < |items| ==> r[i] == items[i] && idOf(r[i]) != idOf(x);
      assert r[|items|] == x;
    }
  }

  /** Removing an id keeps record ids unique. */
  lemma {:induction false} RemoveKeepsUnique<T>(items: seq<T>, id: int, idOf: T -> int)
    requires UniqueIds(items, idOf)
    ensures UniqueIds(RemoveId(items, id, idOf), idOf)
  {
    if |items| > 0 {
      var head := items[0];
      var tail := items[1..];
      assert items == [head] + tail;
      assert UniqueIds(tail, idOf) by {
        forall i, j | 0 <= i < |tail| && 0 <= j < |tail| && idOf(tail[i]) == idOf(tail[j])
          ensures i == j
        {
          assert tail[i] == items[i + 1] && tail[j] == items[j + 1];
        }
      }
      RemoveKeepsUnique(tail, id, idOf);
      RemoveIdConcat([head], tail, id, idOf);
      var rest := RemoveId(tail, id, idOf);
      if idOf(head) != id {
        assert RemoveId([head], id, idOf) == [head];
        var r := [head] + rest;
        assert forall m :: 0 <= m < |rest| ==> idOf(rest[m]) != idOf(head) by {
          forall m | 0 <= m < |rest| ensures idOf(rest[m]) != idOf(head) {
            assert rest[m] in tail;
            var n :| 0 <= n < |tail| && tail[n] == rest[m];
            assert items[n + 1] == rest[m];
          }
        }
        assert forall m :: 0 <= m < |rest| ==> r[m + 1] == rest[m];
        assert r[0] == head;
      } else {
        assert RemoveId([head], id, idOf) == [];
        assert [] + rest == rest;
      }
    }
  }

  /** Overwriting a record by one with the same id does not move any id's first position. */
  lemma FindIndexAfterIdPreservingWrite<T>(items: seq<T>, k: nat, y: T, id: int, idOf: T -> int)
    requires k < |items| && idOf(y) == idOf(items[k])
    ensures FindIndex(items[k := y], id, idOf) == FindIndex(items, id, idOf)
  {
    var after := items[k := y];
    assert forall i :: 0 <= i < |items| ==> idOf(after[i]) == idOf(items[i]);
    var j := FindIndex(items, id, idOf);
    var j' := FindIndex(after, id, idOf);
    if j >= 0 {
      assert idOf(after[j]) == id;
    } else {
      assert !HasId(after, id, idOf);
    }
  }
}
