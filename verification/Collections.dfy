/** Facts about sets and sequences that several modules use. */
module Collections {
  lemma SubsetSize<T>(a: set<T>, b: set<T>)
    requires a <= b
    ensures |a| <= |b|
  {
    assert b == a + (b - a);
  }

  lemma UnionSize<T>(a: set<T>, b: set<T>)
    ensures |a + b| <= |a| + |b|
  {
    assert a + b == a + (b - a);
    SubsetSize(b - a, b);
  }

  /** The elements of a sequence. */
  function Members<T(==,!new)>(s: seq<T>): (m: set<T>)
    ensures forall t :: t in m <==> t in s
    ensures |m| <= |s|
  {
    if s == [] then {}
    else
      UnionSize({s[0]}, Members(s[1..]));
      {s[0]} + Members(s[1..])
  }

  lemma Associative<T>(a: seq<T>, b: seq<T>, c: seq<T>)
    ensures a + (b + c) == a + b + c
  {
  }
}
