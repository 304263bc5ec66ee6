// Sorted listings. The source sorts with a library routine; an ascending sequence is
// determined by its elements, so which routine it is does not show.

module Sorting {

  ghost predicate StrictOrder<T(!new)>(less: (T, T) -> bool) {
    && (forall a, b :: less(a, b) ==> !less(b, a))
    && forall a, b, c :: less(a, b) && less(b, c) ==> less(a, c)
  }

  predicate Ascending<T>(s: seq<T>, less: (T, T) -> bool) {
    forall i, j :: 0 <= i < j < |s| ==> less(s[i], s[j])
  }

  function Insert<T>(s: seq<T>, x: T, less: (T, T) -> bool): (r: seq<T>)
    ensures |r| == |s| + 1
  {
    if s == [] then [x] else if less(x, s[0]) then [x] + s else [s[0]] + Insert(s[1..], x, less)
  }

  lemma {:induction false} InsertHolds<T>(s: seq<T>, x: T, less: (T, T) -> bool)
    ensures forall y :: y in Insert(s, x, less) <==> y == x || y in s
  {
    if s != [] && !less(x, s[0]) {
      InsertHolds(s[1..], x, less);
      assert s == [s[0]] + s[1..];
    }
  }

  /** Inserting something comparable with everything keeps the sequence ascending. */
  lemma {:induction false} InsertAscends<T(!new)>(s: seq<T>, x: T, less: (T, T) -> bool)
    requires StrictOrder(less) && Ascending(s, less)
    requires forall y :: y in s ==> less(x, y) || less(y, x)
    ensures Ascending(Insert(s, x, less), less)
  {
    if s != [] {
      if less(x, s[0]) {
        forall k | 0 <= k < |s| ensures less(x, s[k]) {
          assert k > 0 ==> less(s[0], s[k]);
        }
      } else {
        InsertAscends(s[1..], x, less);
        InsertHolds(s[1..], x, less);
        AscendingPrepends(s[0], Insert(s[1..], x, less), less);
      }
    }
  }

  lemma AscendingPrepends<T>(x: T, s: seq<T>, less: (T, T) -> bool)
    requires Ascending(s, less) && forall y :: y in s ==> less(x, y)
    ensures Ascending([x] + s, less)
  {
  }

  lemma HeadIsIn<T>(s: seq<T>)
    ensures s != [] ==> s[0] in s
  {
  }

  lemma RestHolds<T(!new)>(s: seq<T>, less: (T, T) -> bool)
    requires StrictOrder(less) && Ascending(s, less) && s != []
    ensures forall y :: y in s[1..] <==> y in s && y != s[0]
  {
    assert s == [s[0]] + s[1..];
  }

  /** Main result: an ascending sequence is determined by what it contains. */
  lemma {:induction false} AscendingIsUnique<T(!new)>(a: seq<T>, b: seq<T>, less: (T, T) -> bool)
    requires StrictOrder(less) && Ascending(a, less) && Ascending(b, less)
    requires forall x :: x in a <==> x in b
    ensures a == b
  {
    HeadIsIn(a);
    HeadIsIn(b);
    if a != [] && b != [] {
      assert a[0] == b[0];
      RestHolds(a, less);
      RestHolds(b, less);
      AscendingIsUnique(a[1..], b[1..], less);
    }
  }
}
