/**
 * `paginatedResolver`: one page of a keyed collection, addressed by the key it
 * starts at (the cursor) and a page size (the limit).
 */
module PaginatedResolver {
  import opened Wrappers
  import opened JsObjects

  datatype Page<T> = Page(count: nat, nextCursor: Option<string>, nodes: seq<T>)

  /** The GraphQL error thrown for an unknown cursor. */
  datatype ResolverError = BadUserInput

  /** Where `Array.prototype.slice` ends for an end argument `e` on `n` items. */
  function SliceEnd(n: nat, e: int): (r: nat)
    ensures r <= n
    ensures 0 <= e <= n ==> r == e
    ensures e > n ==> r == n
    ensures e < 0 ==> r == if n + e < 0 then 0 else n + e
  {
    if e < 0 then (if n + e < 0 then 0 else n + e) else if e > n then n else e
  }

  /** `keys.slice(start, end)` for a start inside the keys. */
  function Slice(keys: seq<string>, start: nat, end: int): (r: seq<string>)
    requires start <= |keys|
    ensures |r| <= |keys| - start
    ensures forall i :: 0 <= i < |r| ==> r[i] == keys[start + i]
    ensures start <= end <= |keys| ==> r == keys[start..end]
  {
    var e := SliceEnd(|keys|, end);
    if e <= start then [] else keys[start..e]
  }

  /**
   * One page: no keys gives an empty page; an absent cursor starts at the
   * first key; a cursor that is not a key is a `BadUserInput` error.
   * `nextCursor` is `None` both for JavaScript's `null` and for the
   * `undefined` read at a negative index.
   */
  function Paginate<T>(objects: Dict<T>, limit: int, cursor: Option<string>): (r: Result<Page<T>, ResolverError>)
    requires Covers(objects)
  {
    var keys := objects.keys;
    if |keys| == 0 then Ok(Page(0, None, []))
    else
      var current := if cursor.None? then keys[0] else cursor.value;
      var offset := IndexOf(keys, current);
      if offset == -1 then Err(BadUserInput) else Ok(PageFrom(objects, limit, offset))
  }

  /** The page for a cursor found at position `offset`. */
  function PageFrom<T>(objects: Dict<T>, limit: int, offset: nat): Page<T>
    requires Covers(objects) && offset < |objects.keys|
  {
    var keys := objects.keys;
    var next := offset + limit;
    var nextCursor := if next >= |keys| || next < 0 then None else Some(keys[next]);
    Page(|keys|, nextCursor, ValuesOf(objects, Slice(keys, offset, next)))
  }

  /** The position the cursor stands for, when it names a key. */
  function Offset<T>(objects: Dict<T>, cursor: Option<string>): (r: int)
    requires Covers(objects) && |objects.keys| > 0
    ensures -1 <= r < |objects.keys|
    ensures cursor.None? ==> r == 0
    ensures cursor.Some? ==> (r == -1 <==> cursor.value !in objects.keys)
    ensures cursor.Some? && r >= 0 ==> objects.keys[r] == cursor.value
  {
    IndexOf(objects.keys, if cursor.None? then objects.keys[0] else cursor.value)
  }

  lemma EmptyPage<T>(objects: Dict<T>, limit: int, cursor: Option<string>)
    requires Covers(objects) && objects.keys == []
    ensures Paginate(objects, limit, cursor) == Ok(Page(0, None, []))
  {
  }

  lemma UnknownCursor<T>(objects: Dict<T>, limit: int, cursor: string)
    requires Covers(objects) && |objects.keys| > 0
    ensures Paginate(objects, limit, Some(cursor)).Err? <==> cursor !in objects.keys
    ensures Paginate(objects, limit, Some(cursor)).Err? ==> Paginate(objects, limit, Some(cursor)).error == BadUserInput
  {
  }

  lemma AbsentCursorStartsAtFirstKey<T>(objects: Dict<T>, limit: int)
    requires Covers(objects) && |objects.keys| > 0
    ensures Paginate(objects, limit, None) == Paginate(objects, limit, Some(objects.keys[0]))
  {
  }

  /**
   * A page for a known cursor at position `o` with a non-negative limit: it
   * counts every key, holds the values of `keys[o .. o + limit)` in key order,
   * and its next cursor is the key at `o + limit`, absent exactly when that
   * position is past the last key.
   */
  lemma PageContents<T>(objects: Dict<T>, limit: nat, cursor: Option<string>)
    requires Covers(objects) && |objects.keys| > 0
    requires Offset(objects, cursor) >= 0
    ensures var o := Offset(objects, cursor);
      var n := |objects.keys|;
      var end := if o + limit > n then n else o + limit;
      Paginate(objects, limit, cursor).Ok?
      && Paginate(objects, limit, cursor).value.count == n
      && Paginate(objects, limit, cursor).value.nodes == ValuesOf(objects, objects.keys[o..end])
      && (Paginate(objects, limit, cursor).value.nextCursor.None? <==> o + limit >= n)
      && (o + limit < n ==> Paginate(objects, limit, cursor).value.nextCursor == Some(objects.keys[o + limit]))
  {
  }

  lemma CountIsTotal<T>(objects: Dict<T>, limit: int, cursor: Option<string>)
    requires Covers(objects)
    ensures Paginate(objects, limit, cursor).Ok? ==> Paginate(objects, limit, cursor).value.count == |objects.keys|
  {
  }

  /**
   * A client paging through the collection: the nodes of each page, following
   * `nextCursor` until it is absent; `None` for an error, or when more than
   * `fuel` further pages would be needed.
   */
  function Walk<T>(objects: Dict<T>, limit: int, cursor: Option<string>, fuel: nat): Option<seq<T>>
    requires Covers(objects)
    decreases fuel
  {
    match Paginate(objects, limit, cursor)
    case Err(_) => None
    case Ok(page) =>
      if page.nextCursor.None? then Some(page.nodes)
      else if fuel == 0 then None
      else
        var rest := Walk(objects, limit, page.nextCursor, fuel - 1);
        if rest.None? then None else Some(page.nodes + rest.value)
  }

  lemma ValuesOfAppend<T>(objects: Dict<T>, a: seq<string>, b: seq<string>)
    requires forall i :: 0 <= i < |a| ==> a[i] in objects.values
    requires forall i :: 0 <= i < |b| ==> b[i] in objects.values
    ensures ValuesOf(objects, a + b) == ValuesOf(objects, a) + ValuesOf(objects, b)
  {
    var l, r := ValuesOf(objects, a + b), ValuesOf(objects, a) + ValuesOf(objects, b);
    assert |l| == |r|;
    forall i | 0 <= i < |l| ensures l[i] == r[i] {
      if i < |a| {
        assert (a + b)[i] == a[i];
      } else {
        assert (a + b)[i] == b[i - |a|];
      }
    }
  }

  /** The page that starts at the key in position `o`. */
  lemma PageAt<T>(objects: Dict<T>, limit: int, o: nat)
    requires Covers(objects) && o < |objects.keys|
    requires IndexOf(objects.keys, objects.keys[o]) == o
    ensures Paginate(objects, limit, Some(objects.keys[o])) == Ok(PageFrom(objects, limit, o))
  {
  }

  lemma WalkJoin<T>(objects: Dict<T>, limit: int, o: nat, fuel: nat, rest: nat, tail: seq<T>)
    requires Covers(objects) && limit >= 1 && o + limit < |objects.keys| && fuel == rest + 1
    requires IndexOf(objects.keys, objects.keys[o]) == o
    requires Walk(objects, limit, Some(objects.keys[o + limit]), rest) == Some(tail)
    ensures Walk(objects, limit, Some(objects.keys[o]), fuel) == Some(ValuesOf(objects, objects.keys[o..o + limit]) + tail)
  {
    PageAt(objects, limit, o);
    var page := PageFrom(objects, limit, o);
    assert page.nextCursor == Some(objects.keys[o + limit]);
    assert Slice(objects.keys, o, o + limit) == objects.keys[o..o + limit];
    assert page.nodes == ValuesOf(objects, objects.keys[o..o + limit]);
    assert Walk(objects, limit, Some(objects.keys[o]), fuel) == Some(page.nodes + tail);
  }

  lemma ValuesOfSplit<T>(objects: Dict<T>, keys: seq<string>, o: nat, next: nat)
    requires o <= next <= |keys|
    requires forall i :: 0 <= i < |keys| ==> keys[i] in objects.values
    ensures ValuesOf(objects, keys[o..]) == ValuesOf(objects, keys[o..next]) + ValuesOf(objects, keys[next..])
  {
    assert keys[o..] == keys[o..next] + keys[next..];
    ValuesOfAppend(objects, keys[o..next], keys[next..]);
  }

  /** The walk from the last page's key: that page alone. */
  lemma WalkLast<T>(objects: Dict<T>, limit: int, o: nat, fuel: nat)
    requires Covers(objects) && o < |objects.keys| && o + limit >= |objects.keys|
    requires IndexOf(objects.keys, objects.keys[o]) == o
    ensures Walk(objects, limit, Some(objects.keys[o]), fuel) == Some(ValuesOf(objects, objects.keys[o..]))
  {
    PageAt(objects, limit, o);
    assert Slice(objects.keys, o, o + limit) == objects.keys[o..];
  }

  /** Paging from the key at `o` yields the values of every key from `o` on. */
  lemma {:induction false} WalkFrom<T>(objects: Dict<T>, limit: int, o: nat, fuel: nat)
    requires Covers(objects) && Distinct(objects.keys) && limit >= 1 && o < |objects.keys|
    requires fuel >= |objects.keys| - o
    ensures Walk(objects, limit, Some(objects.keys[o]), fuel) == Some(ValuesOf(objects, objects.keys[o..]))
    decreases fuel
  {
    IndexOfDistinct(objects.keys, o);
    if o + limit >= |objects.keys| {
      WalkLast(objects, limit, o, fuel);
    } else {
      var rest: nat := fuel - 1;
      WalkFrom(objects, limit, o + limit, rest);
      WalkJoin(objects, limit, o, fuel, rest, ValuesOf(objects, objects.keys[o + limit..]));
      ValuesOfSplit(objects, objects.keys, o, o + limit);
    }
  }

  /**
   * Starting without a cursor and following `nextCursor` with a positive
   * limit visits every object once, in key order.
   */
  lemma {:induction false} PagingVisitsAll<T>(objects: Dict<T>, limit: int, fuel: nat)
    requires Covers(objects) && Distinct(objects.keys) && limit >= 1 && fuel >= |objects.keys|
    ensures Walk(objects, limit, None, fuel) == Some(Values(objects))
  {
    if |objects.keys| > 0 {
      AbsentCursorStartsAtFirstKey(objects, limit);
      WalkFrom(objects, limit, 0, fuel);
      assert objects.keys[0..] == objects.keys;
    }
  }
}
