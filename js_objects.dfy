/**
 * A JavaScript object used as a dictionary from string ids: its own keys, in
 * the order `Object.keys` lists them, and the value under each key.
 */
module JsObjects {
  datatype Dict<T> = Dict(keys: seq<string>, values: map<string, T>)

  /** No key is listed twice. */
  predicate Distinct(keys: seq<string>) {
    keys == [] || (Absent(keys[0], keys[1..]) && Distinct(keys[1..]))
  }

  predicate Absent(k: string, keys: seq<string>) {
    keys == [] || (keys[0] != k && Absent(k, keys[1..]))
  }

  lemma {:induction false} AbsentAt(k: string, keys: seq<string>, i: nat)
    requires Absent(k, keys) && i < |keys|
    ensures keys[i] != k
  {
    if i > 0 {
      assert keys[i] == keys[1..][i - 1];
      AbsentAt(k, keys[1..], i - 1);
    }
  }

  /** Keys are listed once each, and exactly the keys have values. */
  predicate Valid<T>(d: Dict<T>) {
    Distinct(d.keys) && Covers(d)
  }

  /** Exactly the keys have values. */
  predicate Covers<T>(d: Dict<T>) {
    (forall i :: 0 <= i < |d.keys| ==> d.keys[i] in d.values)
    && (forall k :: k in d.values ==> k in d.keys)
  }

  /** `Object.values`: the values in key order. */
  function Values<T>(d: Dict<T>): (r: seq<T>)
    requires Valid(d)
    ensures |r| == |d.keys|
    ensures forall i :: 0 <= i < |d.keys| ==> r[i] == d.values[d.keys[i]]
  {
    ValuesOf(d, d.keys)
  }

  /** The values under the listed keys, in that order (`keys.map(id => objects[id])`). */
  function ValuesOf<T>(d: Dict<T>, keys: seq<string>): (r: seq<T>)
    requires forall i :: 0 <= i < |keys| ==> keys[i] in d.values
    ensures |r| == |keys|
    ensures forall i :: 0 <= i < |keys| ==> r[i] == d.values[keys[i]]
  {
    if keys == [] then [] else [d.values[keys[0]]] + ValuesOf(d, keys[1..])
  }

  /** `Array.prototype.indexOf`: the first position of a key, or -1. */
  function IndexOf(keys: seq<string>, k: string): (r: int)
    ensures -1 <= r < |keys|
    ensures r == -1 <==> k !in keys
    ensures r >= 0 ==> keys[r] == k && forall i :: 0 <= i < r ==> keys[i] != k
  {
    if keys == [] then -1
    else if keys[0] == k then 0
    else
      var rest := IndexOf(keys[1..], k);
      if rest == -1 then -1 else rest + 1
  }

  /** With distinct keys, a key's first position is its only one. */
  lemma {:induction false} IndexOfDistinct(keys: seq<string>, i: nat)
    requires i < |keys| && Distinct(keys)
    ensures IndexOf(keys, keys[i]) == i
  {
    if i > 0 {
      assert keys[i] == keys[1..][i - 1];
      AbsentAt(keys[0], keys[1..], i - 1);
      IndexOfDistinct(keys[1..], i - 1);
    }
  }
}
