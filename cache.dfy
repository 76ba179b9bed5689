/**
 * The list operations every store applies to its cached collection:
 * `findIndex` by id followed by `splice(idx, 1, x)` on update, and
 * `filter` on delete. Entities are compared through a key function,
 * the `id` property in every store but the audio one.
 */
module Cache {

  /** `a` is `b` with some elements dropped and the rest kept in order. */
  ghost predicate Subseq<T>(a: seq<T>, b: seq<T>)
    decreases |b|
  {
    if a == [] then true
    else if b == [] then false
    else (a[0] == b[0] && Subseq(a[1..], b[1..])) || Subseq(a, b[1..])
  }

  /** `k` is the position of the first element whose key is `id`. */
  ghost predicate FirstWith<T>(xs: seq<T>, id: int, key: T -> int, k: int)
  {
    0 <= k < |xs| && key(xs[k]) == id && forall j :: 0 <= j < k ==> key(xs[j]) != id
  }

  /** `xs.findIndex(x => x.id === id)`: the first position with that key, or -1. */
  function IndexOf<T>(xs: seq<T>, id: int, key: T -> int): (i: int)
    ensures -1 <= i < |xs|
    ensures i == -1 <==> forall j :: 0 <= j < |xs| ==> key(xs[j]) != id
    ensures 0 <= i ==> FirstWith(xs, id, key, i)
  {
    if xs == [] then -1
    else if key(xs[0]) == id then 0
    else
      var k := IndexOf(xs[1..], id, key);
      if k < 0 then -1 else k + 1
  }

  /**
   * `const idx = xs.findIndex(e => e.id === x.id); if (idx >= 0) xs.splice(idx, 1, x)`:
   * the first entry with the same key is replaced by `x`; with no such entry
   * nothing changes. Keys at every position are preserved.
   */
  function ReplaceFirst<T>(xs: seq<T>, x: T, key: T -> int): (r: seq<T>)
    ensures |r| == |xs|
    ensures forall j :: 0 <= j < |xs| ==> key(r[j]) == key(xs[j])
    ensures (forall j :: 0 <= j < |xs| ==> key(xs[j]) != key(x)) ==> r == xs
    ensures forall k :: FirstWith(xs, key(x), key, k) ==>
              r[k] == x && forall j :: 0 <= j < |xs| && j != k ==> r[j] == xs[j]
  {
    var i := IndexOf(xs, key(x), key);
    if i < 0 then xs else xs[i := x]
  }

  /** `xs.filter(p)`: the elements satisfying `p`, each as often as in `xs`. */
  function Keep<T(!new)>(xs: seq<T>, p: T -> bool): (r: seq<T>)
    ensures |r| <= |xs|
    ensures forall x :: x in r <==> x in xs && p(x)
    ensures forall x :: multiset(r)[x] == if p(x) then multiset(xs)[x] else 0
  {
    if xs == [] then []
    else
      assert xs == [xs[0]] + xs[1..];
      (if p(xs[0]) then [xs[0]] else []) + Keep(xs[1..], p)
  }

  /** `filter` keeps the surviving elements in their original order. */
  lemma {:induction false} KeepIsSubseq<T(!new)>(xs: seq<T>, p: T -> bool)
    ensures Subseq(Keep(xs, p), xs)
  {
    if xs != [] {
      KeepIsSubseq(xs[1..], p);
      var rest := Keep(xs[1..], p);
      if p(xs[0]) {
        assert Keep(xs, p) == [xs[0]] + rest;
        assert ([xs[0]] + rest)[1..] == rest;
      } else {
        assert Keep(xs, p) == rest;
        SubseqOfTail(rest, xs);
      }
    }
  }

  /** A subsequence of the tail is a subsequence of the whole. */
  lemma {:induction false} SubseqOfTail<T>(a: seq<T>, b: seq<T>)
    requires b != [] && Subseq(a, b[1..])
    ensures Subseq(a, b)
  {
  }

  /** Filtering a list all of whose elements pass changes nothing. */
  lemma {:induction false} KeepAll<T(!new)>(xs: seq<T>, p: T -> bool)
    requires forall x :: x in xs ==> p(x)
    ensures Keep(xs, p) == xs
  {
    if xs != [] {
      KeepAll(xs[1..], p);
    }
  }

  /** Filtering twice by the same predicate is filtering once. */
  lemma KeepIdempotent<T(!new)>(xs: seq<T>, p: T -> bool)
    ensures Keep(Keep(xs, p), p) == Keep(xs, p)
  {
    KeepAll(Keep(xs, p), p);
  }

  /** `xs.filter(x => x.id !== id)`. */
  function RemoveKey<T(!new)>(xs: seq<T>, id: int, key: T -> int): (r: seq<T>)
    ensures |r| <= |xs|
    ensures forall x :: x in r <==> x in xs && key(x) != id
    ensures forall x :: key(x) != id ==> multiset(r)[x] == multiset(xs)[x]
  {
    Keep(xs, x => key(x) != id)
  }

  /** Deleting by id keeps the other entries in their original order. */
  lemma RemoveKeyIsSubseq<T(!new)>(xs: seq<T>, id: int, key: T -> int)
    ensures Subseq(RemoveKey(xs, id, key), xs)
  {
    KeepIsSubseq(xs, x => key(x) != id);
  }

  /** With no entry carrying `id`, deleting it leaves the list as it was. */
  lemma RemoveAbsentKey<T(!new)>(xs: seq<T>, id: int, key: T -> int)
    requires forall j :: 0 <= j < |xs| ==> key(xs[j]) != id
    ensures RemoveKey(xs, id, key) == xs
  {
    KeepAll(xs, x => key(x) != id);
  }

  /** Deleting the same id a second time changes nothing. */
  lemma RemoveKeyIdempotent<T(!new)>(xs: seq<T>, id: int, key: T -> int)
    ensures RemoveKey(RemoveKey(xs, id, key), id, key) == RemoveKey(xs, id, key)
  {
    var once := RemoveKey(xs, id, key);
    forall j | 0 <= j < |once| ensures key(once[j]) != id {
      assert once[j] in once;
    }
    RemoveAbsentKey(once, id, key);
  }
}
