/** Selection of term matches (app/checks/common_terms.py): candidates are
    sorted, taken greedily when they do not overlap, and grouped. */
module TermSelection {
  import StableSort

  datatype Kind = Discouraged | Case

  /** A candidate in source coordinates. */
  datatype Candidate = Candidate(start: int, end: int, observed: string, standard: string, kind: Kind)

  const LOCATIONS_PER_ISSUE: nat := 5

  predicate LexLeq(a: string, b: string) {
    a == "" || (b != "" && (a[0] < b[0] || (a[0] == b[0] && LexLeq(a[1..], b[1..]))))
  }

  lemma {:induction false} LexTotal(a: string, b: string)
    ensures LexLeq(a, b) || LexLeq(b, a)
  {
    if a != "" && b != "" && a[0] == b[0] { LexTotal(a[1..], b[1..]); }
  }

  lemma {:induction false} LexTransitive(a: string, b: string, c: string)
    requires LexLeq(a, b) && LexLeq(b, c)
    ensures LexLeq(a, c)
  {
    if a != "" && a[0] == b[0] && b[0] == c[0] { LexTransitive(a[1..], b[1..], c[1..]); }
  }

  function Length(c: Candidate): int { c.end - c.start }

  /** key = (start, -length, discouraged first, standard) */
  predicate KeyLeq(a: Candidate, b: Candidate) {
    if a.start != b.start then a.start < b.start
    else if Length(a) != Length(b) then Length(a) > Length(b)
    else if a.kind != b.kind then a.kind.Discouraged?
    else LexLeq(a.standard, b.standard)
  }

  lemma KeyPreorder()
    ensures StableSort.Preorder(KeyLeq)
  {
    forall a, b ensures KeyLeq(a, b) || KeyLeq(b, a) { LexTotal(a.standard, b.standard); }
    forall a, b, c | KeyLeq(a, b) && KeyLeq(b, c) ensures KeyLeq(a, c) {
      if LexLeq(a.standard, b.standard) && LexLeq(b.standard, c.standard) { LexTransitive(a.standard, b.standard, c.standard); }
    }
  }

  // ---- what a selection must be -------------------------------------------------------------

  /** Chosen matches follow one another without overlapping. */
  ghost predicate Disjoint(chosen: seq<Candidate>) {
    forall i, k :: 0 <= i < k < |chosen| ==> chosen[i].end <= chosen[k].start
  }

  /** A chosen match explains why x was not: it comes no later in the order and covers x's start. */
  predicate Blocks(c: Candidate, x: Candidate) { KeyLeq(c, x) && c.start <= x.start < c.end }

  ghost predicate Explained(x: Candidate, chosen: seq<Candidate>) {
    x in chosen || exists c :: c in chosen && Blocks(c, x)
  }

  /** A selection from the candidates: disjoint, in order, and explaining every one of them. */
  ghost predicate Selection(chosen: seq<Candidate>, candidates: seq<Candidate>) {
    && Disjoint(chosen) && StableSort.Sorted(KeyLeq, chosen)
    && (forall c :: c in chosen ==> c in candidates)
    && (forall x :: x in candidates ==> Explained(x, chosen))
  }

  /** The greedy loop over the sorted candidates. */
  method SelectSorted(sorted: seq<Candidate>) returns (chosen: seq<Candidate>)
    requires StableSort.Sorted(KeyLeq, sorted) && forall c <- sorted :: 0 <= c.start <= c.end
    ensures Selection(chosen, sorted)
  {
    chosen := [];
    var lastEnd := -1;
    var i := 0;
    while i < |sorted|
      invariant 0 <= i <= |sorted|
      invariant Disjoint(chosen) && forall c :: c in chosen ==> c in sorted[..i]
      invariant StableSort.Sorted(KeyLeq, chosen)
      invariant lastEnd == if chosen == [] then -1 else chosen[|chosen| - 1].end
      invariant forall k :: 0 <= k < i ==> Explained(sorted[k], chosen)
    {
      var c := sorted[i];
      assert c in sorted;
      forall k | 0 <= k < |chosen| ensures KeyLeq(chosen[k], c) && chosen[k].end <= lastEnd {
        assert chosen[k] in sorted[..i];
        var last := chosen[|chosen| - 1];
        assert last in sorted[..i] && last in sorted;
        if k < |chosen| - 1 { assert chosen[k].end <= last.start; }
      }
      ghost var before := chosen;
      if c.start < lastEnd {
        assert Blocks(chosen[|chosen| - 1], c);
      } else {
        chosen := chosen + [c];
        lastEnd := c.end;
        assert chosen[|chosen| - 1] == c;
      }
      forall k | 0 <= k < i + 1 ensures Explained(sorted[k], chosen) {
        if k < i { assert Explained(sorted[k], before); }
      }
      i := i + 1;
    }
    assert sorted[..i] == sorted;
  }

  /** `_find_common_term_matches` up to the grouping: the candidates in order of
      position, longest first, each taken unless an earlier one covers its start. */
  method SelectMatches(candidates: seq<Candidate>) returns (chosen: seq<Candidate>)
    requires forall c <- candidates :: 0 <= c.start <= c.end
    ensures Selection(chosen, candidates)
  {
    KeyPreorder();
    StableSort.SortSorts(KeyLeq, candidates);
    chosen := SelectSorted(StableSort.Sort(KeyLeq, candidates));
  }

  /** The longest candidate at a chosen position is the one chosen. */
  lemma LongestWins(candidates: seq<Candidate>, chosen: seq<Candidate>, c: Candidate, x: Candidate)
    requires forall c <- candidates :: 0 <= c.start <= c.end
    requires Selection(chosen, candidates)
    requires c in chosen && x in candidates && x.start == c.start
    ensures Length(x) <= Length(c)
  {
    var b := x;
    if x !in chosen { b :| b in chosen && Blocks(b, x); }
    var i :| 0 <= i < |chosen| && chosen[i] == c;
    var k :| 0 <= k < |chosen| && chosen[k] == b;
    assert b in candidates && c in candidates;
    assert i < k ==> KeyLeq(c, b) && c.end <= b.start;
    assert k < i ==> KeyLeq(b, c) && b.end <= c.start;
  }

  /** Of equally long candidates at a chosen position, one of a discouraged
      term goes before one of a case rule, and within a kind the first standard
      term in the order of its characters. */
  lemma TieGoesTo(candidates: seq<Candidate>, chosen: seq<Candidate>, c: Candidate, x: Candidate)
    requires forall c <- candidates :: 0 <= c.start <= c.end
    requires Selection(chosen, candidates)
    requires c in chosen && x in candidates && x.start == c.start && Length(x) == Length(c) > 0
    ensures x.kind.Discouraged? ==> c.kind.Discouraged?
    ensures x.kind == c.kind ==> LexLeq(c.standard, x.standard)
  {
    var b := x;
    if x !in chosen { b :| b in chosen && Blocks(b, x); }
    var i :| 0 <= i < |chosen| && chosen[i] == c;
    var k :| 0 <= k < |chosen| && chosen[k] == b;
    assert b in candidates && c in candidates;
    assert i < k ==> KeyLeq(c, b) && c.end <= b.start;
    assert k < i ==> KeyLeq(b, c) && b.end <= c.start;
    LexTotal(c.standard, c.standard);
  }

  // ---- grouping --------------------------------------------------------------------------------

  datatype Key = Key(observed: string, standard: string, kind: Kind)

  datatype Group = Group(key: Key, count: nat, first: int, locations: seq<int>)

  function KeyOf(c: Candidate): Key { Key(c.observed, c.standard, c.kind) }

  /** Positions of a group's matches among the first n chosen, in order. */
  function Starts(chosen: seq<Candidate>, n: nat, key: Key): seq<int>
    requires n <= |chosen|
  {
    if n == 0 then []
    else Starts(chosen, n - 1, key) + if KeyOf(chosen[n - 1]) == key then [chosen[n - 1].start] else []
  }

  /** What a group reports after n matches. */
  predicate Reports(g: Group, chosen: seq<Candidate>, n: nat)
    requires n <= |chosen|
  {
    var starts := Starts(chosen, n, g.key);
    && starts != [] && g.count == |starts| && g.first == starts[0]
    && g.locations == starts[..if g.count < LOCATIONS_PER_ISSUE then g.count else LOCATIONS_PER_ISSUE]
  }

  function Total(groups: seq<Group>): nat {
    if groups == [] then 0 else groups[0].count + Total(groups[1..])
  }

  function NewGroup(c: Candidate): Group { Group(KeyOf(c), 1, c.start, [c.start]) }

  function Bump(g: Group, start: int): Group {
    g.(count := g.count + 1, locations := if |g.locations| < LOCATIONS_PER_ISSUE then g.locations + [start] else g.locations)
  }

  /** setdefault, then count one more match and maybe its location. */
  function Count(groups: seq<Group>, c: Candidate): seq<Group> {
    if groups == [] then [NewGroup(c)]
    else if groups[0].key == KeyOf(c) then [Bump(groups[0], c.start)] + groups[1..]
    else [groups[0]] + Count(groups[1..], c)
  }

  predicate HasKey(groups: seq<Group>, key: Key) {
    groups != [] && (groups[0].key == key || HasKey(groups[1..], key))
  }

  predicate DistinctKeys(groups: seq<Group>) {
    groups == [] || (!HasKey(groups[1..], groups[0].key) && DistinctKeys(groups[1..]))
  }

  predicate AllReport(groups: seq<Group>, chosen: seq<Candidate>, n: nat)
    requires n <= |chosen|
  {
    groups == [] || (Reports(groups[0], chosen, n) && AllReport(groups[1..], chosen, n))
  }

  /** Every match so far belongs to a group. */
  predicate Covered(groups: seq<Group>, chosen: seq<Candidate>, n: nat)
    requires n <= |chosen|
  {
    n == 0 || (HasKey(groups, KeyOf(chosen[n - 1])) && Covered(groups, chosen, n - 1))
  }

  /** One group per key, each reporting its own matches, none left out or counted twice. */
  predicate GroupsOk(groups: seq<Group>, chosen: seq<Candidate>, n: nat)
    requires n <= |chosen|
  {
    DistinctKeys(groups) && AllReport(groups, chosen, n) && Covered(groups, chosen, n) && Total(groups) == n
  }

  lemma {:induction false} CountKeys(groups: seq<Group>, c: Candidate, key: Key)
    ensures HasKey(Count(groups, c), key) <==> HasKey(groups, key) || key == KeyOf(c)
  {
    if groups == [] {
      assert !HasKey([NewGroup(c)][1..], key);
    } else if groups[0].key == KeyOf(c) {
      assert Count(groups, c)[1..] == groups[1..];
    } else {
      CountKeys(groups[1..], c, key);
      assert Count(groups, c)[1..] == Count(groups[1..], c);
    }
  }

  lemma {:induction false} CountDistinct(groups: seq<Group>, c: Candidate)
    requires DistinctKeys(groups)
    ensures DistinctKeys(Count(groups, c))
  {
    if groups == [] {
      assert [NewGroup(c)][1..] == [];
    } else if groups[0].key == KeyOf(c) {
      assert Count(groups, c)[1..] == groups[1..];
    } else {
      CountDistinct(groups[1..], c);
      CountKeys(groups[1..], c, groups[0].key);
      assert Count(groups, c)[1..] == Count(groups[1..], c);
    }
  }

  lemma {:induction false} CountTotal(groups: seq<Group>, c: Candidate)
    ensures Total(Count(groups, c)) == Total(groups) + 1
  {
    if groups == [] {
      assert [NewGroup(c)][1..] == [];
    } else if groups[0].key == KeyOf(c) {
      assert Count(groups, c)[1..] == groups[1..];
    } else {
      CountTotal(groups[1..], c);
      assert Count(groups, c)[1..] == Count(groups[1..], c);
    }
  }

  lemma {:induction false} NoStarts(groups: seq<Group>, chosen: seq<Candidate>, n: nat, key: Key)
    requires n <= |chosen| && Covered(groups, chosen, n) && !HasKey(groups, key)
    ensures Starts(chosen, n, key) == []
  {
    if n > 0 { NoStarts(groups, chosen, n - 1, key); }
  }

  lemma StartsNext(chosen: seq<Candidate>, n: nat, key: Key)
    requires n < |chosen|
    ensures Starts(chosen, n + 1, key) == Starts(chosen, n, key) + if KeyOf(chosen[n]) == key then [chosen[n].start] else []
  {
  }

  lemma BumpReports(g: Group, chosen: seq<Candidate>, n: nat)
    requires n < |chosen| && Reports(g, chosen, n) && g.key == KeyOf(chosen[n])
    ensures Reports(Bump(g, chosen[n].start), chosen, n + 1)
  {
    StartsNext(chosen, n, g.key);
  }

  lemma {:induction false} OthersReport(groups: seq<Group>, chosen: seq<Candidate>, n: nat)
    requires n < |chosen| && AllReport(groups, chosen, n) && !HasKey(groups, KeyOf(chosen[n]))
    ensures AllReport(groups, chosen, n + 1)
  {
    if groups != [] {
      StartsNext(chosen, n, groups[0].key);
      OthersReport(groups[1..], chosen, n);
    }
  }

  lemma {:induction false} CountReports(groups: seq<Group>, chosen: seq<Candidate>, n: nat)
    requires n < |chosen| && AllReport(groups, chosen, n) && DistinctKeys(groups)
    requires HasKey(groups, KeyOf(chosen[n])) || Starts(chosen, n, KeyOf(chosen[n])) == []
    ensures AllReport(Count(groups, chosen[n]), chosen, n + 1)
  {
    var c := chosen[n];
    var after := Count(groups, c);
    if groups == [] {
      StartsNext(chosen, n, KeyOf(c));
      assert after[1..] == [];
    } else if groups[0].key == KeyOf(c) {
      BumpReports(groups[0], chosen, n);
      OthersReport(groups[1..], chosen, n);
      assert after[1..] == groups[1..];
    } else {
      StartsNext(chosen, n, groups[0].key);
      CountReports(groups[1..], chosen, n);
      assert after[1..] == Count(groups[1..], c);
    }
  }

  lemma {:induction false} StillCovered(groups: seq<Group>, chosen: seq<Candidate>, n: nat, c: Candidate)
    requires n <= |chosen| && Covered(groups, chosen, n)
    ensures Covered(Count(groups, c), chosen, n)
  {
    if n > 0 {
      StillCovered(groups, chosen, n - 1, c);
      CountKeys(groups, c, KeyOf(chosen[n - 1]));
    }
  }

  lemma CountStep(groups: seq<Group>, chosen: seq<Candidate>, n: nat)
    requires n < |chosen| && GroupsOk(groups, chosen, n)
    ensures GroupsOk(Count(groups, chosen[n]), chosen, n + 1)
  {
    var c := chosen[n];
    CountDistinct(groups, c);
    CountTotal(groups, c);
    StillCovered(groups, chosen, n, c);
    CountKeys(groups, c, KeyOf(c));
    if !HasKey(groups, KeyOf(c)) { NoStarts(groups, chosen, n, KeyOf(c)); }
    CountReports(groups, chosen, n);
  }

  predicate FirstLeq(a: Group, b: Group) {
    a.first < b.first || (a.first == b.first && LexLeq(a.key.observed, b.key.observed))
  }

  lemma FirstPreorder()
    ensures StableSort.Preorder(FirstLeq)
  {
    forall a, b ensures FirstLeq(a, b) || FirstLeq(b, a) { LexTotal(a.key.observed, b.key.observed); }
    forall a, b, c | FirstLeq(a, b) && FirstLeq(b, c) ensures FirstLeq(a, c) {
      if LexLeq(a.key.observed, b.key.observed) && LexLeq(b.key.observed, c.key.observed) {
        LexTransitive(a.key.observed, b.key.observed, c.key.observed);
      }
    }
  }

  function CountAll(chosen: seq<Candidate>, n: nat): seq<Group>
    requires n <= |chosen|
  {
    if n == 0 then [] else Count(CountAll(chosen, n - 1), chosen[n - 1])
  }

  lemma {:induction false} CountAllOk(chosen: seq<Candidate>, n: nat)
    requires n <= |chosen|
    ensures GroupsOk(CountAll(chosen, n), chosen, n)
  {
    if n > 0 {
      var before := CountAll(chosen, n - 1);
      CountAllOk(chosen, n - 1);
      CountStep(before, chosen, n - 1);
    } else {
      NoGroupsYet(chosen);
    }
  }

  lemma NoGroupsYet(chosen: seq<Candidate>)
    ensures GroupsOk([], chosen, 0)
  {
  }

  /** Groups of the chosen matches: one per key, counting every match of the key
      and keeping the first five locations. */
  method GroupMatches(chosen: seq<Candidate>) returns (groups: seq<Group>)
    ensures GroupsOk(groups, chosen, |chosen|)
  {
    groups := [];
    var n := 0;
    while n < |chosen|
      invariant 0 <= n <= |chosen| && groups == CountAll(chosen, n)
    {
      groups := Count(groups, chosen[n]);
      n := n + 1;
    }
    CountAllOk(chosen, n);
  }

  /** The issues are reported in order of first position, none lost or added. */
  lemma IssuesAreOrdered(groups: seq<Group>)
    ensures var issues := StableSort.Sort(FirstLeq, groups);
      multiset(issues) == multiset(groups) && StableSort.Sorted(FirstLeq, issues)
  {
    FirstPreorder();
    StableSort.SortSorts(FirstLeq, groups);
  }
}
