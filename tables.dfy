/**
 * The in-memory store keeps each entity in a JavaScript `Map` from id to record.
 * Such a map iterates in insertion order, and every lookup the store makes is a
 * `find` (first match) or a `filter` over that iteration. A table is therefore
 * modelled as the sequence of its records in insertion order; this module holds
 * the scans over such a sequence and the invariant its ids keep.
 */
module Tables {
  import opened Wrappers

  /** Index of the first record satisfying `p`, as `Array.prototype.findIndex` gives it. */
  function FindFirst<T>(s: seq<T>, p: T -> bool): (r: Option<nat>)
    ensures r.Some? ==> r.value < |s| && p(s[r.value])
    ensures r.Some? ==> forall j :: 0 <= j < r.value ==> !p(s[j])
    ensures r.None? <==> forall j :: 0 <= j < |s| ==> !p(s[j])
  {
    if |s| == 0 then None
    else if p(s[0]) then Some(0)
    else match FindFirst(s[1..], p)
      case None => None
      case Some(k) => Some(k + 1)
  }

  /** The first record satisfying `p`, as `Array.prototype.find` gives it. */
  function Find<T>(s: seq<T>, p: T -> bool): (r: Option<T>)
    ensures r.Some? ==> r.value in s && p(r.value)
    ensures r.None? <==> forall j :: 0 <= j < |s| ==> !p(s[j])
  {
    match FindFirst(s, p)
    case Some(k) => Some(s[k])
    case None => None
  }

  /** The records satisfying `p`, in their original order. */
  function Filter<T>(s: seq<T>, p: T -> bool): (r: seq<T>)
    ensures |r| <= |s|
    ensures forall i :: 0 <= i < |r| ==> r[i] in s && p(r[i])
    ensures forall i :: 0 <= i < |s| && p(s[i]) ==> s[i] in r
  {
    if |s| == 0 then []
    else (if p(s[0]) then [s[0]] else []) + Filter(s[1..], p)
  }

  /** Filtering distributes over concatenation, so the filtered records keep their insertion order. */
  lemma {:induction false} FilterAppend<T>(s: seq<T>, t: seq<T>, p: T -> bool)
    ensures Filter(s + t, p) == Filter(s, p) + Filter(t, p)
  {
    if |s| == 0 {
      assert s + t == t;
    } else {
      assert (s + t)[1..] == s[1..] + t;
      FilterAppend(s[1..], t, p);
    }
  }

  /** A record appended after an earlier match never becomes the first match. */
  lemma FindFirstAppend<T>(s: seq<T>, t: seq<T>, p: T -> bool)
    requires FindFirst(s, p).Some?
    ensures FindFirst(s + t, p) == FindFirst(s, p)
  {
    var k := FindFirst(s, p).value;
    assert p((s + t)[k]);
    assert forall j :: 0 <= j < k ==> (s + t)[j] == s[j];
  }

  /**
   * The id invariant of a table whose counter is `next`: the counter is at
   * least 1, every id lies in [1, next), and ids strictly increase along
   * insertion order.
   */
  ghost predicate IdsAscending<T>(s: seq<T>, key: T -> int, next: int) {
    && 1 <= next
    && (forall i :: 0 <= i < |s| ==> 1 <= key(s[i]) < next)
    && (forall i, j :: 0 <= i < j < |s| ==> key(s[i]) < key(s[j]))
  }

  /** Under the invariant no two records share an id and no record has the sentinel id 0. */
  lemma IdsDistinct<T>(s: seq<T>, key: T -> int, next: int, i: int, j: int)
    requires IdsAscending(s, key, next)
    requires 0 <= i < |s| && 0 <= j < |s| && key(s[i]) == key(s[j])
    ensures i == j && key(s[i]) != 0
  {
  }

  /** Appending a record whose id is the counter, then bumping the counter, keeps the invariant. */
  lemma AppendKeepsIds<T>(s: seq<T>, key: T -> int, next: int, x: T)
    requires IdsAscending(s, key, next) && key(x) == next
    ensures IdsAscending(s + [x], key, next + 1)
  {
    var r := s + [x];
    forall i | 0 <= i < |r|
      ensures 1 <= key(r[i]) < next + 1
    {
      if i < |s| { assert r[i] == s[i]; } else { assert r[i] == x; }
    }
    forall i, j | 0 <= i < j < |r|
      ensures key(r[i]) < key(r[j])
    {
      assert r[i] == s[i];
      if j < |s| { assert r[j] == s[j]; } else { assert r[j] == x; }
    }
  }

  /**
   * The invariant of a table nothing is ever deleted from: the records carry
   * the ids 1, 2, ..., n in insertion order and the counter is n + 1.
   */
  ghost predicate IdsDense<T>(s: seq<T>, key: T -> int, next: int) {
    && next == |s| + 1
    && (forall i :: 0 <= i < |s| ==> key(s[i]) == i + 1)
  }

  /** A dense table is in particular ascending. */
  lemma DenseIsAscending<T>(s: seq<T>, key: T -> int, next: int)
    requires IdsDense(s, key, next)
    ensures IdsAscending(s, key, next)
  {
  }

  /** Appending the record whose id is the counter keeps a table dense. */
  lemma AppendKeepsDense<T>(s: seq<T>, key: T -> int, next: int, x: T)
    requires IdsDense(s, key, next) && key(x) == next
    ensures IdsDense(s + [x], key, next + 1)
  {
    var r := s + [x];
    forall i | 0 <= i < |r|
      ensures key(r[i]) == i + 1
    {
      if i < |s| { assert r[i] == s[i]; } else { assert r[i] == x; }
    }
  }

  /** In a dense table the record with id `id` sits at index `id - 1`. */
  lemma DenseIndexOfId<T>(s: seq<T>, key: T -> int, next: int, id: int)
    requires IdsDense(s, key, next)
    ensures IndexOfId(s, key, id).Some? <==> 1 <= id < next
    ensures IndexOfId(s, key, id).Some? ==> IndexOfId(s, key, id).value == id - 1
  {
    if 1 <= id < next {
      assert key(s[id - 1]) == id;
    }
  }

  /** Replacing a record by one with the same id keeps a table dense. */
  lemma ReplaceKeepsDense<T>(s: seq<T>, key: T -> int, next: int, k: nat, x: T)
    requires IdsDense(s, key, next) && k < |s| && key(x) == key(s[k])
    ensures IdsDense(s[k := x], key, next)
  {
  }

  /** Index of the record with id `id`: `Map.prototype.get`. */
  function IndexOfId<T>(s: seq<T>, key: T -> int, id: int): (r: Option<nat>)
    ensures r.Some? ==> r.value < |s| && key(s[r.value]) == id
    ensures r.None? <==> forall j :: 0 <= j < |s| ==> key(s[j]) != id
  {
    FindFirst(s, x => key(x) == id)
  }

  /** The sequence without its `k`-th record: `Map.prototype.delete` of that record's key. */
  function RemoveAt<T>(s: seq<T>, k: nat): (r: seq<T>)
    requires k < |s|
    ensures |r| == |s| - 1
    ensures forall j :: 0 <= j < k ==> r[j] == s[j]
    ensures forall j :: k <= j < |r| ==> r[j] == s[j + 1]
  {
    s[..k] + s[k + 1..]
  }

  /** Removing a record keeps the id invariant. */
  lemma RemoveKeepsIds<T>(s: seq<T>, key: T -> int, next: int, k: nat)
    requires IdsAscending(s, key, next) && k < |s|
    ensures IdsAscending(RemoveAt(s, k), key, next)
  {
    var r := RemoveAt(s, k);
    forall i, j | 0 <= i < j < |r|
      ensures key(r[i]) < key(r[j])
    {
      var i' := if i < k then i else i + 1;
      var j' := if j < k then j else j + 1;
      assert r[i] == s[i'] && r[j] == s[j'] && i' < j';
    }
  }

  /** Replacing a record by one with the same id keeps the invariant: `Map.prototype.set` on a present key. */
  lemma ReplaceKeepsIds<T>(s: seq<T>, key: T -> int, next: int, k: nat, x: T)
    requires IdsAscending(s, key, next) && k < |s| && key(x) == key(s[k])
    ensures IdsAscending(s[k := x], key, next)
  {
  }
}
