// The list behind CharacterStore, LocationStore and EventStore
// (GUI/storage/character_store.py, location_store.py, event_store.py): the
// three classes are the same code over different records, so the list and its
// add/update/delete/get are written once, for any record with an id.

module IdList {
  import opened Json

  /** The position of the first item whose id is `id`, if any. */
  function FirstIndex<K(==), T(==,!new)>(items: seq<T>, idOf: T -> K, id: K): (r: Option<nat>)
    ensures r.Some? ==> r.value < |items| && idOf(items[r.value]) == id
    ensures r.Some? ==> forall j :: 0 <= j < r.value ==> idOf(items[j]) != id
    ensures r.None? <==> forall j :: 0 <= j < |items| ==> idOf(items[j]) != id
  {
    if items == [] then None
    else if idOf(items[0]) == id then Some(0)
    else
      var rest := FirstIndex(items[1..], idOf, id);
      if rest.Some? then Some(rest.value + 1) else None
  }

  /** The first item whose id is `id`, or none. */
  function Lookup<K(==), T(==,!new)>(items: seq<T>, idOf: T -> K, id: K): (r: Option<T>)
    ensures r.Some? <==> exists j :: 0 <= j < |items| && idOf(items[j]) == id
    ensures r.Some? ==> r.value in items && idOf(r.value) == id
  {
    var i := FirstIndex(items, idOf, id);
    if i.Some? then Some(items[i.value]) else None
  }

  /** `[x for x in items if x.id != id]`. */
  function WithoutId<K(==), T(==,!new)>(items: seq<T>, idOf: T -> K, id: K): (r: seq<T>)
    ensures |r| <= |items|
    ensures forall x :: x in r <==> x in items && idOf(x) != id
  {
    if items == [] then []
    else
      var rest := WithoutId(items[1..], idOf, id);
      assert forall x :: x in items <==> x == items[0] || x in items[1..];
      if idOf(items[0]) == id then rest else [items[0]] + rest
  }

  /** Filtering keeps the order: it can be applied to any split of the list separately. */
  lemma {:induction false} WithoutIdConcat<K, T(!new)>(a: seq<T>, b: seq<T>, idOf: T -> K, id: K)
    ensures WithoutId(a + b, idOf, id) == WithoutId(a, idOf, id) + WithoutId(b, idOf, id)
  {
    if a == [] {
      assert a + b == b;
    } else {
      assert (a + b)[1..] == a[1..] + b;
      WithoutIdConcat(a[1..], b, idOf, id);
      var x, y := WithoutId(a[1..], idOf, id), WithoutId(b, idOf, id);
      assert [a[0]] + (x + y) == ([a[0]] + x) + y;
    }
  }

  /** A list without the id is left exactly as it was. */
  lemma {:induction false} WithoutAbsentId<K, T(!new)>(items: seq<T>, idOf: T -> K, id: K)
    requires forall j :: 0 <= j < |items| ==> idOf(items[j]) != id
    ensures WithoutId(items, idOf, id) == items
  {
    if items != [] {
      WithoutAbsentId(items[1..], idOf, id);
    }
  }

  /** Deleting twice is deleting once. */
  lemma WithoutIdIdempotent<K, T(!new)>(items: seq<T>, idOf: T -> K, id: K)
    ensures WithoutId(WithoutId(items, idOf, id), idOf, id) == WithoutId(items, idOf, id)
  {
    var once := WithoutId(items, idOf, id);
    forall j | 0 <= j < |once| ensures idOf(once[j]) != id {
      assert once[j] in once;
    }
    WithoutAbsentId(once, idOf, id);
  }

  /** After a delete the id is not found; every other id is found as before. */
  lemma LookupWithoutId<K, T(!new)>(items: seq<T>, idOf: T -> K, id: K, other: K)
    ensures Lookup(WithoutId(items, idOf, id), idOf, id).None?
    ensures other != id ==> Lookup(WithoutId(items, idOf, id), idOf, other) == Lookup(items, idOf, other)
  {
    var r := WithoutId(items, idOf, id);
    forall j | 0 <= j < |r| ensures idOf(r[j]) != id {
      assert r[j] in r;
    }
    if other != id {
      LookupWithoutOther(items, idOf, id, other);
    }
  }

  lemma LookupWithoutOther<K, T(!new)>(items: seq<T>, idOf: T -> K, id: K, other: K)
    requires other != id
    ensures Lookup(WithoutId(items, idOf, id), idOf, other) == Lookup(items, idOf, other)
  {
    FirstIndexWithout(items, idOf, id, other);
  }

  /** Filtering out one id moves the first record of another id but does not change which record it is. */
  lemma {:induction false} FirstIndexWithout<K, T(!new)>(items: seq<T>, idOf: T -> K, id: K, other: K)
    requires other != id
    ensures var a, b := FirstIndex(WithoutId(items, idOf, id), idOf, other), FirstIndex(items, idOf, other);
            && a.Some? == b.Some?
            && (a.Some? ==> WithoutId(items, idOf, id)[a.value] == items[b.value])
  {
    if items != [] && idOf(items[0]) != other {
      var x, tail := items[0], items[1..];
      assert items == [x] + tail;
      FirstIndexWithout(tail, idOf, id, other);
      FirstIndexCons(x, tail, idOf, other);
      if idOf(x) != id {
        assert WithoutId(items, idOf, id) == [x] + WithoutId(tail, idOf, id);
        FirstIndexCons(x, WithoutId(tail, idOf, id), idOf, other);
      }
    }
  }

  /** Past a first record of another id, the search continues one position further on. */
  lemma FirstIndexCons<K, T(!new)>(x: T, tail: seq<T>, idOf: T -> K, id: K)
    requires idOf(x) != id
    ensures var r, t := FirstIndex([x] + tail, idOf, id), FirstIndex(tail, idOf, id);
            && r.Some? == t.Some?
            && (r.Some? ==> r.value == t.value + 1 && ([x] + tail)[r.value] == tail[t.value])
  {
    assert ([x] + tail)[1..] == tail;
  }

  /** After an update that found its id, looking the id up gives the new record. */
  lemma LookupAfterUpdate<K, T(!new)>(items: seq<T>, idOf: T -> K, x: T)
    requires FirstIndex(items, idOf, idOf(x)).Some?
    ensures Lookup(items[FirstIndex(items, idOf, idOf(x)).value := x], idOf, idOf(x)) == Some(x)
  {
    var i := FirstIndex(items, idOf, idOf(x)).value;
    var r := items[i := x];
    var k := FirstIndex(r, idOf, idOf(x));
    assert idOf(r[i]) == idOf(x);
  }

  /** After an add, a record whose id was not there yet is found. */
  lemma LookupAfterAdd<K, T(!new)>(items: seq<T>, idOf: T -> K, x: T)
    requires Lookup(items, idOf, idOf(x)).None?
    ensures Lookup(items + [x], idOf, idOf(x)) == Some(x)
  {
    var r := items + [x];
    var k := FirstIndex(r, idOf, idOf(x));
    assert idOf(r[|items|]) == idOf(x);
  }

  /**
   * A store: the records in memory, the list last written to its file, and
   * how a record's id is read. Every change writes the whole list (`save`).
   */
  class Store<K(==), T(==,!new)> {
    var items: seq<T>
    var saved: seq<T>
    const idOf: T -> K

    /** `__init__` followed by `load`: the records read from the file (none without one). */
    constructor (idOf: T -> K, loaded: seq<T>)
      ensures this.idOf == idOf && items == loaded && saved == loaded
    {
      this.idOf := idOf;
      items := loaded;
      saved := loaded;
    }

    /** `add`: appended at the end, then saved. */
    method Add(x: T)
      modifies this
      ensures items == old(items) + [x] && saved == items
    {
      items := items + [x];
      saved := items;
    }

    /** `update`: the first record with the same id is replaced and the list saved; otherwise nothing happens. */
    method Update(x: T) returns (found: bool)
      modifies this
      ensures found <==> FirstIndex(old(items), idOf, idOf(x)).Some?
      ensures found ==> items == old(items)[FirstIndex(old(items), idOf, idOf(x)).value := x] && saved == items
      ensures !found ==> items == old(items) && saved == old(saved)
    {
      var idx := 0;
      while idx < |items|
        invariant 0 <= idx <= |items|
        invariant forall j :: 0 <= j < idx ==> idOf(items[j]) != idOf(x)
      {
        if idOf(items[idx]) == idOf(x) {
          items := items[idx := x];
          saved := items;
          return true;
        }
        idx := idx + 1;
      }
      return false;
    }

    /** `delete`: every record with the id goes, the others stay in order; then saved. */
    method Delete(id: K)
      modifies this
      ensures items == WithoutId(old(items), idOf, id) && saved == items
    {
      items := WithoutId(items, idOf, id);
      saved := items;
    }

    /** `get`: the first record with the id, or none. */
    method Get(id: K) returns (r: Option<T>)
      ensures r.Some? <==> exists j :: 0 <= j < |items| && idOf(items[j]) == id
      ensures r.Some? ==> exists j :: 0 <= j < |items| && items[j] == r.value && idOf(r.value) == id
                            && forall k :: 0 <= k < j ==> idOf(items[k]) != id
      ensures r == Lookup(items, idOf, id)
    {
      var i := 0;
      while i < |items|
        invariant 0 <= i <= |items|
        invariant forall j :: 0 <= j < i ==> idOf(items[j]) != id
      {
        if idOf(items[i]) == id {
          return Some(items[i]);
        }
        i := i + 1;
      }
      return None;
    }

    /** `list`: the records in order. */
    function List(): seq<T>
      reads this
    {
      items
    }
  }
}
