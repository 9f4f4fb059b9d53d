/**
 * `getObjects`: a new keyed collection holding the objects of another one that
 * pass a test, each stored under its own id.
 */
module GetObjects {
  import opened JsObjects

  /**
   * The values stored after visiting `objects` in order: each kept object is
   * written at its id, so a later one overwrites an earlier one.
   */
  function KeptValues<T>(objects: seq<T>, id: T -> string, keep: T -> bool): map<string, T>
  {
    if objects == [] then map[]
    else
      var last := objects[|objects| - 1];
      var before := KeptValues(objects[..|objects| - 1], id, keep);
      if keep(last) then before[id(last) := last] else before
  }

  /**
   * The keys of that object in `Object.keys` order: each id where it was
   * first written (an overwrite keeps the key's place).
   */
  function KeptKeys<T>(objects: seq<T>, id: T -> string, keep: T -> bool): seq<string>
  {
    if objects == [] then []
    else
      var last := objects[|objects| - 1];
      var before := KeptKeys(objects[..|objects| - 1], id, keep);
      if keep(last) && id(last) !in before then before + [id(last)] else before
  }

  /** The object `getObjects` returns for the values visited so far. */
  function Kept<T>(objects: seq<T>, id: T -> string, keep: T -> bool): Dict<T>
  {
    Dict(KeptKeys(objects, id, keep), KeptValues(objects, id, keep))
  }

  /** Visits `Object.values(objects)` in order, writing each kept object at its id. */
  method Filter<T>(objects: Dict<T>, id: T -> string, keep: T -> bool) returns (r: Dict<T>)
    requires Valid(objects)
    ensures r == Kept(Values(objects), id, keep)
    ensures Valid(r)
  {
    var all := Values(objects);
    var keys: seq<string> := [];
    var values: map<string, T> := map[];
    var i := 0;
    while i < |all|
      invariant 0 <= i <= |all|
      invariant keys == KeptKeys(all[..i], id, keep)
      invariant values == KeptValues(all[..i], id, keep)
    {
      var item := all[i];
      ghost var visited := all[..i + 1];
      assert visited[..|visited| - 1] == all[..i] && visited[|visited| - 1] == item;
      KeysMatchValues(all[..i], id, keep);
      if keep(item) {
        if id(item) !in values {
          keys := keys + [id(item)];
        }
        values := values[id(item) := item];
      }
      i := i + 1;
    }
    assert all[..i] == all;
    r := Dict(keys, values);
    KeptIsValid(all, id, keep);
  }

  /** The listed keys are exactly the keys written. */
  lemma {:induction false} KeysMatchValues<T>(objects: seq<T>, id: T -> string, keep: T -> bool)
    ensures forall k :: k in KeptKeys(objects, id, keep) <==> k in KeptValues(objects, id, keep)
  {
    if objects != [] {
      KeysMatchValues(objects[..|objects| - 1], id, keep);
    }
  }

  /** The result is a well-formed object: distinct keys, each with its value. */
  lemma {:induction false} KeptIsValid<T>(objects: seq<T>, id: T -> string, keep: T -> bool)
    ensures Valid(Kept(objects, id, keep))
  {
    KeysMatchValues(objects, id, keep);
    DistinctKept(objects, id, keep);
  }

  lemma {:induction false} DistinctKept<T>(objects: seq<T>, id: T -> string, keep: T -> bool)
    ensures Distinct(KeptKeys(objects, id, keep))
  {
    if objects != [] {
      var last := objects[|objects| - 1];
      var before := KeptKeys(objects[..|objects| - 1], id, keep);
      DistinctKept(objects[..|objects| - 1], id, keep);
      if keep(last) && id(last) !in before {
        DistinctAppend(before, id(last));
      }
    }
  }

  lemma {:induction false} DistinctAppend(keys: seq<string>, k: string)
    requires Distinct(keys) && k !in keys
    ensures Distinct(keys + [k])
  {
    if keys != [] {
      assert (keys + [k])[1..] == keys[1..] + [k];
      assert keys[1..] == keys[1..];
      DistinctAppend(keys[1..], k);
      AbsentAppend(keys[0], keys[1..], k);
    }
  }

  lemma {:induction false} AbsentAppend(a: string, keys: seq<string>, k: string)
    requires Absent(a, keys) && a != k
    ensures Absent(a, keys + [k])
  {
    if keys != [] {
      assert (keys + [k])[1..] == keys[1..] + [k];
      AbsentAppend(a, keys[1..], k);
    } else {
      assert ([] + [k])[1..] == [];
    }
  }

  /** An id is a key of the result exactly when some item with that id passes. */
  lemma {:induction false} KeptExactly<T>(objects: seq<T>, id: T -> string, keep: T -> bool, k: string)
    ensures k in KeptValues(objects, id, keep) <==> exists i :: 0 <= i < |objects| && keep(objects[i]) && id(objects[i]) == k
  {
    if objects != [] {
      var init := objects[..|objects| - 1];
      KeptExactly(init, id, keep, k);
      if exists i :: 0 <= i < |objects| && keep(objects[i]) && id(objects[i]) == k {
        var i :| 0 <= i < |objects| && keep(objects[i]) && id(objects[i]) == k;
        if i < |init| {
          assert init[i] == objects[i];
        }
      }
      if exists i :: 0 <= i < |init| && keep(init[i]) && id(init[i]) == k {
        var i :| 0 <= i < |init| && keep(init[i]) && id(init[i]) == k;
        assert objects[i] == init[i];
      }
    }
  }

  /**
   * Each stored item passed the test, is stored under its own id, and is
   * the last item with that id to pass.
   */
  lemma {:induction false} KeptLast<T>(objects: seq<T>, id: T -> string, keep: T -> bool, k: string)
    requires k in KeptValues(objects, id, keep)
    ensures exists i :: (0 <= i < |objects| && objects[i] == KeptValues(objects, id, keep)[k]
      && keep(objects[i]) && id(objects[i]) == k
      && forall j :: i < j < |objects| ==> !(keep(objects[j]) && id(objects[j]) == k))
  {
    var init := objects[..|objects| - 1];
    var last := objects[|objects| - 1];
    if keep(last) && id(last) == k {
      assert objects[|objects| - 1] == KeptValues(objects, id, keep)[k];
    } else {
      KeptLast(init, id, keep, k);
      var i :| 0 <= i < |init| && init[i] == KeptValues(init, id, keep)[k]
        && keep(init[i]) && id(init[i]) == k
        && forall j :: i < j < |init| ==> !(keep(init[j]) && id(init[j]) == k);
      assert objects[i] == init[i];
      forall j | i < j < |objects|
        ensures !(keep(objects[j]) && id(objects[j]) == k)
      {
        if j < |init| {
          assert objects[j] == init[j];
        }
      }
    }
  }
}
