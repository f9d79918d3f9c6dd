/** Python's `sorted`: a stable sort by a total preorder on keys. */
module StableSort {

  /** `leq` orders the keys; equal keys are allowed. */
  ghost predicate Preorder<T(!new)>(leq: (T, T) -> bool) {
    && (forall a, b :: leq(a, b) || leq(b, a))
    && (forall a, b, c :: leq(a, b) && leq(b, c) ==> leq(a, c))
  }

  ghost predicate Sorted<T>(leq: (T, T) -> bool, s: seq<T>) {
    forall i, j :: 0 <= i < j < |s| ==> leq(s[i], s[j])
  }

  /** Places `e` before the first element it does not follow. */
  function Insert<T>(leq: (T, T) -> bool, e: T, s: seq<T>): seq<T> {
    if s == [] || leq(e, s[0]) then [e] + s else [s[0]] + Insert(leq, e, s[1..])
  }

  function Sort<T>(leq: (T, T) -> bool, s: seq<T>): seq<T> {
    if s == [] then [] else Insert(leq, s[0], Sort(leq, s[1..]))
  }

  lemma {:induction false} InsertMembers<T>(leq: (T, T) -> bool, e: T, s: seq<T>)
    ensures multiset(Insert(leq, e, s)) == multiset(s) + multiset{e}
  {
    if s != [] && !leq(e, s[0]) {
      InsertMembers(leq, e, s[1..]);
      assert s == [s[0]] + s[1..];
    }
  }

  lemma {:induction false} InsertSorted<T(!new)>(leq: (T, T) -> bool, e: T, s: seq<T>)
    requires Preorder(leq) && Sorted(leq, s)
    ensures Sorted(leq, Insert(leq, e, s))
  {
    if s != [] {
      if leq(e, s[0]) {
        assert forall k :: 0 < k < |s| ==> leq(s[0], s[k]);
      } else {
        var rest := Insert(leq, e, s[1..]);
        InsertSorted(leq, e, s[1..]);
        InsertMembers(leq, e, s[1..]);
        forall k | 0 <= k < |rest| ensures leq(s[0], rest[k]) {
          assert rest[k] in multiset(rest);
          assert rest[k] == e || rest[k] in s[1..];
        }
      }
    }
  }

  /** The result is a sorted rearrangement of the input. */
  lemma {:induction false} SortSorts<T(!new)>(leq: (T, T) -> bool, s: seq<T>)
    requires Preorder(leq)
    ensures Sorted(leq, Sort(leq, s)) && multiset(Sort(leq, s)) == multiset(s) && |Sort(leq, s)| == |s|
    ensures forall x :: x in Sort(leq, s) <==> x in s
  {
    if s != [] {
      var rest := Sort(leq, s[1..]);
      SortSorts(leq, s[1..]);
      InsertSorted(leq, s[0], rest);
      InsertMembers(leq, s[0], rest);
      assert s == [s[0]] + s[1..];
      var r := Insert(leq, s[0], rest);
      assert |r| == |multiset(r)| == |multiset(s)|;
      forall x ensures x in r <==> x in s { assert x in multiset(r) <==> x in multiset(s); }
    }
  }
}
