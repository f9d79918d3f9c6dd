/** Merging the findings of independent check rounds (app/reporting/rounds.py). */
module RoundMerge {
  import opened Options
  import StableSort

  /** One reported item; `content` holds its texts. */
  datatype Item<C> = Item(kind: string, severity: string, confidence: string, content: C, index: int)

  datatype Round<C> = Round(number: int, status: string, items: seq<Item<C>>)

  datatype Finding<C> = Finding(
    id: string, status: string, severity: string, confidence: string, content: C,
    sourceRounds: seq<int>, sourceItems: seq<(int, int)>, conflict: bool)

  /** The text comparisons and text merges, which are not modelled: when a finding
      and an item are the same, how their fields are joined, the numbers in a
      suggestion, and the identity of a new finding. */
  datatype Rules<!C> = Rules(same: (C, C) -> bool, join: (C, C) -> C, numbers: C -> set<string>, identity: C -> string)

  function Rank(severity: string): nat {
    if severity == "critical" then 0 else if severity == "high" then 1
    else if severity == "medium" then 2 else if severity == "low" then 3 else 99
  }

  // ---- one finding -----------------------------------------------------------------------------

  predicate NumbersClash<C>(rules: Rules<C>, a: C, b: C) {
    rules.numbers(a) != {} && rules.numbers(b) != {} && rules.numbers(a) != rules.numbers(b)
  }

  function NewFinding<C>(rules: Rules<C>, item: Item<C>): Finding<C> {
    Finding(rules.identity(item.content), item.kind, item.severity, item.confidence, item.content, [], [], false)
  }

  /** Takes one more item of a round into a finding. */
  function Take<C>(rules: Rules<C>, f: Finding<C>, round: int, item: Item<C>): Finding<C> {
    f.(conflict := f.conflict || f.status != item.kind || NumbersClash(rules, f.content, item.content),
       severity := if Rank(item.severity) < Rank(f.severity) then item.severity else f.severity,
       content := rules.join(f.content, item.content),
       sourceRounds := if round in f.sourceRounds then f.sourceRounds else f.sourceRounds + [round],
       sourceItems := f.sourceItems + [(round, item.index)])
  }

  /** The first finding that is the same takes the item; else it starts its own. */
  function Absorb<C>(rules: Rules<C>, findings: seq<Finding<C>>, round: int, item: Item<C>): seq<Finding<C>> {
    if findings == [] then [Take(rules, NewFinding(rules, item), round, item)]
    else if rules.same(findings[0].content, item.content) then [Take(rules, findings[0], round, item)] + findings[1..]
    else [findings[0]] + Absorb(rules, findings[1..], round, item)
  }

  predicate Counts<C>(round: Round<C>, item: Item<C>) { round.status == "completed" && item.kind != "non_issue" }

  /** A conflict leaves only a suggestion of low confidence. */
  function Settle<C>(f: Finding<C>): Finding<C> {
    if f.conflict then f.(status := "suggestion", confidence := "low") else f
  }

  // ---- a finding and the items it came from --------------------------------------------------------

  datatype Member<C> = Member(round: int, item: Item<C>)

  /** What a finding becomes when it takes these items one after the other. */
  function Folded<C>(rules: Rules<C>, members: seq<Member<C>>): Finding<C>
    requires members != []
  {
    var last := members[|members| - 1];
    var before := if |members| == 1 then NewFinding(rules, last.item) else Folded(rules, members[..|members| - 1]);
    Take(rules, before, last.round, last.item)
  }

  function OriginsOf<C>(members: seq<Member<C>>): seq<(int, int)> {
    if members == [] then []
    else OriginsOf(members[..|members| - 1]) + [(members[|members| - 1].round, members[|members| - 1].item.index)]
  }

  /** A finding lists exactly the items it came from. */
  lemma {:induction false} FoldedSources<C>(rules: Rules<C>, members: seq<Member<C>>)
    requires members != []
    ensures Folded(rules, members).sourceItems == OriginsOf(members)
  {
    if |members| > 1 { FoldedSources(rules, members[..|members| - 1]); } else { assert members[..0] == []; }
  }

  /** Its severity is the most severe one any of them has. */
  lemma {:induction false} FoldedSeverity<C>(rules: Rules<C>, members: seq<Member<C>>)
    requires members != []
    ensures forall k :: 0 <= k < |members| ==> Rank(Folded(rules, members).severity) <= Rank(members[k].item.severity)
    ensures exists k :: 0 <= k < |members| && Folded(rules, members).severity == members[k].item.severity
  {
    var n := |members| - 1;
    if n > 0 {
      FoldedSeverity(rules, members[..n]);
      var k :| 0 <= k < n && Folded(rules, members[..n]).severity == members[..n][k].item.severity;
      assert members[..n][k] == members[k];
      if Rank(members[n].item.severity) < Rank(Folded(rules, members[..n]).severity) {
        assert Folded(rules, members).severity == members[n].item.severity;
      } else {
        assert Folded(rules, members).severity == members[k].item.severity;
      }
      forall j | 0 <= j < |members| ensures Rank(Folded(rules, members).severity) <= Rank(members[j].item.severity) {
        if j < n { assert members[..n][j] == members[j]; }
      }
    } else {
      assert Folded(rules, members).severity == members[0].item.severity;
    }
  }

  /** Some member has this severity. */
  predicate HasSeverity<C>(members: seq<Member<C>>, severity: string) {
    exists k :: 0 <= k < |members| && members[k].item.severity == severity
  }

  lemma LastSeverity<C>(members: seq<Member<C>>, severity: string)
    requires members != []
    ensures var n := |members| - 1;
      HasSeverity(members, severity) <==> HasSeverity(members[..n], severity) || members[n].item.severity == severity
  {
    var n := |members| - 1;
    if HasSeverity(members[..n], severity) {
      var k :| 0 <= k < n && members[..n][k].item.severity == severity;
      assert members[k].item.severity == severity;
    }
    if HasSeverity(members, severity) && members[n].item.severity != severity {
      var k :| 0 <= k < n && members[k].item.severity == severity;
      assert members[..n][k].item.severity == severity;
    }
  }

  /** What the members' severities make of the finding's: the most severe that
      is known among them, or that of the first when none is known. */
  predicate SeverityIs<C>(members: seq<Member<C>>, severity: string)
    requires members != []
  {
    if HasSeverity(members, "critical") then severity == "critical"
    else if HasSeverity(members, "high") then severity == "high"
    else if HasSeverity(members, "medium") then severity == "medium"
    else if HasSeverity(members, "low") then severity == "low"
    else severity == members[0].item.severity
  }

  lemma TakenSeverity<C>(rules: Rules<C>, members: seq<Member<C>>, before: Finding<C>)
    requires members != []
    requires var n := |members| - 1;
      if n == 0 then before.severity == members[0].item.severity else SeverityIs(members[..n], before.severity)
    ensures var last := members[|members| - 1]; SeverityIs(members, Take(rules, before, last.round, last.item).severity)
  {
    LastSeverity(members, "critical");
    LastSeverity(members, "high");
    LastSeverity(members, "medium");
    LastSeverity(members, "low");
  }

  /** A finding with a critical member is critical, one without but with a high
      member is high, and so on; a severity outside the four never changes it. */
  lemma {:induction false} MergedSeverity<C>(rules: Rules<C>, members: seq<Member<C>>)
    requires members != []
    ensures SeverityIs(members, Folded(rules, members).severity)
  {
    var n := |members| - 1;
    if n > 0 {
      MergedSeverity(rules, members[..n]);
      TakenSeverity(rules, members, Folded(rules, members[..n]));
    } else {
      TakenSeverity(rules, members, NewFinding(rules, members[0].item));
    }
  }

  predicate HasRound<C>(members: seq<Member<C>>, round: int) {
    exists k :: 0 <= k < |members| && members[k].round == round
  }

  lemma LastRound<C>(members: seq<Member<C>>, round: int)
    requires members != []
    ensures var n := |members| - 1; HasRound(members, round) <==> HasRound(members[..n], round) || members[n].round == round
  {
    var n := |members| - 1;
    if HasRound(members[..n], round) { var k :| 0 <= k < n && members[..n][k].round == round; assert members[k].round == round; }
    if HasRound(members, round) && members[n].round != round {
      var k :| 0 <= k < n && members[k].round == round;
      assert members[..n][k].round == round;
    }
  }

  lemma TakesRound<C>(rules: Rules<C>, f: Finding<C>, taken: int, item: Item<C>, round: int)
    requires multiset(f.sourceRounds)[round] <= 1
    ensures var g := Take(rules, f, taken, item);
      (round in g.sourceRounds <==> round in f.sourceRounds || round == taken) && multiset(g.sourceRounds)[round] <= 1
  {
    assert round in multiset(f.sourceRounds) <==> round in f.sourceRounds;
  }

  /** Its rounds are those of its items, each once. */
  lemma {:induction false} FoldedRounds<C>(rules: Rules<C>, members: seq<Member<C>>, round: int)
    requires members != []
    ensures round in Folded(rules, members).sourceRounds <==> HasRound(members, round)
    ensures multiset(Folded(rules, members).sourceRounds)[round] <= 1
  {
    var n := |members| - 1;
    LastRound(members, round);
    if n > 0 {
      FoldedRounds(rules, members[..n], round);
      TakesRound(rules, Folded(rules, members[..n]), members[n].round, members[n].item, round);
    } else {
      TakesRound(rules, NewFinding(rules, members[0].item), members[0].round, members[0].item, round);
    }
  }

  lemma FoldedLast<C>(rules: Rules<C>, members: seq<Member<C>>, before: Finding<C>)
    requires |members| > 1 && before == Folded(rules, members[..|members| - 1])
    ensures var last := members[|members| - 1]; Folded(rules, members) == Take(rules, before, last.round, last.item)
  {
  }

  lemma {:induction false} FoldedStatus<C>(rules: Rules<C>, members: seq<Member<C>>, k: nat)
    requires k < |members|
    ensures Folded(rules, members).status == members[0].item.kind
    ensures members[k].item.kind != members[0].item.kind ==> Folded(rules, members).conflict
  {
    var n := |members| - 1;
    if n > 0 {
      var j, start := if k < n then k else 0, members[..n];
      FoldedStatus(rules, start, j);
      assert start[0] == members[0] && start[j] == members[j];
      FoldedLast(rules, members, Folded(rules, start));
    }
  }

  /** The k-th member disagrees with what the earlier ones made: it has another
      type, or its suggestion names other numbers. */
  predicate Disagrees<C>(rules: Rules<C>, members: seq<Member<C>>, k: nat)
    requires k < |members|
  {
    || members[k].item.kind != members[0].item.kind
    || (k > 0 && var a, b := rules.numbers(Folded(rules, members[..k]).content), rules.numbers(members[k].item.content);
          a != {} && b != {} && a != b)
  }

  lemma PrefixDisagrees<C>(rules: Rules<C>, members: seq<Member<C>>, n: nat, k: nat)
    requires k < n <= |members|
    ensures Disagrees(rules, members[..n], k) <==> Disagrees(rules, members, k)
  {
    assert members[..n][..k] == members[..k] && members[..n][k] == members[k] && members[..n][0] == members[0];
  }

  /** A finding is a conflict exactly when one of its items disagrees with those
      before it. */
  lemma {:induction false} ConflictMeans<C>(rules: Rules<C>, members: seq<Member<C>>)
    requires members != []
    ensures Folded(rules, members).conflict <==> exists k :: 0 <= k < |members| && Disagrees(rules, members, k)
  {
    var n := |members| - 1;
    FoldedStatus(rules, members, 0);
    if n > 0 {
      ConflictMeans(rules, members[..n]);
      FoldedStatus(rules, members[..n], 0);
      forall k | 0 <= k < n ensures Disagrees(rules, members[..n], k) <==> Disagrees(rules, members, k) { PrefixDisagrees(rules, members, n, k); }
      assert Folded(rules, members).conflict <==> Folded(rules, members[..n]).conflict || Disagrees(rules, members, n);
    } else {
      assert !Disagrees(rules, members, 0);
    }
  }

  /** Items of unequal types leave a low-confidence suggestion; without a
      conflict the finding has the type of every item. */
  lemma UnequalTypesSettle<C>(rules: Rules<C>, members: seq<Member<C>>, i: nat, k: nat)
    requires i < |members| && k < |members|
    ensures var f := Settle(Folded(rules, members));
      && (members[i].item.kind != members[k].item.kind ==> f.conflict && f.status == "suggestion" && f.confidence == "low")
      && (!f.conflict ==> f.status == members[k].item.kind)
  {
    FoldedStatus(rules, members, i);
    FoldedStatus(rules, members, k);
  }

  // ---- all findings -------------------------------------------------------------------------------------

  /** No group is empty. */
  predicate Proper<C>(groups: seq<seq<Member<C>>>) {
    groups == [] || (|groups[0]| > 0 && Proper(groups[1..]))
  }

  lemma UpdateLater<T>(first: T, all: seq<T>, rest: seq<T>, j: nat, x: T)
    requires j < |rest| && all == [first] + rest
    ensures [first] + rest[j := x] == all[j + 1 := x]
  {
  }

  lemma StartsAlone<C>(rules: Rules<C>, round: int, item: Item<C>)
    ensures Folded(rules, [Member(round, item)]) == Take(rules, NewFinding(rules, item), round, item)
  {
  }

  /** An item goes to the first finding that is the same, which alone changes,
      and starts the last one when none is. */
  lemma {:induction false} AbsorbMeans<C>(rules: Rules<C>, findings: seq<Finding<C>>, round: int, item: Item<C>) returns (i: nat)
    ensures i <= |findings| && forall k :: 0 <= k < i ==> !rules.same(findings[k].content, item.content)
    ensures i < |findings| ==> rules.same(findings[i].content, item.content)
    ensures Absorb(rules, findings, round, item) ==
      if i < |findings| then findings[i := Take(rules, findings[i], round, item)]
      else findings + [Folded(rules, [Member(round, item)])]
  {
    if findings == [] || rules.same(findings[0].content, item.content) {
      i := 0;
      StartsAlone(rules, round, item);
    } else {
      var rest := findings[1..];
      var j := AbsorbMeans(rules, rest, round, item);
      i := j + 1;
      assert forall k :: 0 < k < i ==> findings[k] == rest[k - 1];
      if j < |rest| { UpdateLater(findings[0], findings, rest, j, Take(rules, rest[j], round, item)); }
      else { assert [findings[0]] + (rest + [Folded(rules, [Member(round, item)])]) == findings + [Folded(rules, [Member(round, item)])]; }
    }
  }

  /** Each item of a group was the same as what the ones before it made. */
  predicate Alike<C>(rules: Rules<C>, group: seq<Member<C>>) {
    forall j :: 0 < j < |group| ==> rules.same(Folded(rules, group[..j]).content, group[j].item.content)
  }

  predicate AllAlike<C>(rules: Rules<C>, groups: seq<seq<Member<C>>>) {
    groups == [] || (Alike(rules, groups[0]) && AllAlike(rules, groups[1..]))
  }

  lemma AlikeNext<C>(rules: Rules<C>, group: seq<Member<C>>, m: Member<C>)
    requires Alike(rules, group) && group != [] && rules.same(Folded(rules, group).content, m.item.content)
    ensures Alike(rules, group + [m])
  {
    forall j | 0 < j < |group| + 1 ensures rules.same(Folded(rules, (group + [m])[..j]).content, (group + [m])[j].item.content) {
      if j < |group| { assert (group + [m])[..j] == group[..j]; } else { assert (group + [m])[..j] == group; }
    }
  }

  lemma {:induction false} AbsorbAlike<C>(rules: Rules<C>, groups: seq<seq<Member<C>>>, m: Member<C>)
    requires Proper(groups) && AllAlike(rules, groups)
    ensures AllAlike(rules, AbsorbGroup(rules, groups, m))
  {
    var after := AbsorbGroup(rules, groups, m);
    if groups == [] {
      assert after[1..] == [];
    } else if rules.same(Folded(rules, groups[0]).content, m.item.content) {
      AlikeNext(rules, groups[0], m);
      assert after[1..] == groups[1..];
    } else {
      AbsorbAlike(rules, groups[1..], m);
      assert after[1..] == AbsorbGroup(rules, groups[1..], m);
    }
  }

  function AbsorbGroup<C>(rules: Rules<C>, groups: seq<seq<Member<C>>>, m: Member<C>): seq<seq<Member<C>>>
    requires Proper(groups)
  {
    if groups == [] then [[m]]
    else if rules.same(Folded(rules, groups[0]).content, m.item.content) then [groups[0] + [m]] + groups[1..]
    else [groups[0]] + AbsorbGroup(rules, groups[1..], m)
  }

  function FoldAll<C>(rules: Rules<C>, groups: seq<seq<Member<C>>>): seq<Finding<C>>
    requires Proper(groups)
  {
    if groups == [] then [] else [Folded(rules, groups[0])] + FoldAll(rules, groups[1..])
  }

  ghost function Pool<C>(groups: seq<seq<Member<C>>>): multiset<Member<C>> {
    if groups == [] then multiset{} else multiset(groups[0]) + Pool(groups[1..])
  }

  lemma {:induction false} AbsorbFollows<C>(rules: Rules<C>, groups: seq<seq<Member<C>>>, m: Member<C>)
    requires Proper(groups)
    ensures var after := AbsorbGroup(rules, groups, m);
      && Proper(after)
      && FoldAll(rules, after) == Absorb(rules, FoldAll(rules, groups), m.round, m.item)
      && Pool(after) == Pool(groups) + multiset{m}
  {
    var after := AbsorbGroup(rules, groups, m);
    if groups == [] {
      assert after[1..] == [];
    } else {
      if rules.same(Folded(rules, groups[0]).content, m.item.content) {
        assert after[1..] == groups[1..];
        assert (groups[0] + [m])[..|groups[0]|] == groups[0];
      } else {
        AbsorbFollows(rules, groups[1..], m);
        assert after[1..] == AbsorbGroup(rules, groups[1..], m);
      }
    }
  }

  /** The items of the first n of a round that count. */
  function Counted<C>(round: Round<C>, n: nat): seq<Member<C>>
    requires n <= |round.items|
  {
    if n == 0 then []
    else Counted(round, n - 1) + if Counts(round, round.items[n - 1]) then [Member(round.number, round.items[n - 1])] else []
  }

  ghost function AllCounted<C>(rounds: seq<Round<C>>): multiset<Member<C>> {
    if rounds == [] then multiset{}
    else multiset(Counted(rounds[0], |rounds[0].items|)) + AllCounted(rounds[1..])
  }

  /** Findings and the groups of items they came from, which share out the pool. */
  ghost predicate Explains<C>(rules: Rules<C>, findings: seq<Finding<C>>, groups: seq<seq<Member<C>>>, pool: multiset<Member<C>>) {
    Proper(groups) && AllAlike(rules, groups) && findings == FoldAll(rules, groups) && Pool(groups) == pool
  }

  lemma ExplainsNext<C>(rules: Rules<C>, findings: seq<Finding<C>>, groups: seq<seq<Member<C>>>, pool: multiset<Member<C>>, m: Member<C>)
    requires Explains(rules, findings, groups, pool)
    ensures Explains(rules, Absorb(rules, findings, m.round, m.item), AbsorbGroup(rules, groups, m), pool + multiset{m})
  {
    AbsorbFollows(rules, groups, m);
    AbsorbAlike(rules, groups, m);
  }

  lemma PoolNext<C>(round: Round<C>, n: nat, pool: multiset<Member<C>>)
    requires n < |round.items|
    ensures pool + multiset(Counted(round, n + 1)) == pool + multiset(Counted(round, n))
              + if Counts(round, round.items[n]) then multiset{Member(round.number, round.items[n])} else multiset{}
  {
  }

  function AbsorbRound<C>(rules: Rules<C>, findings: seq<Finding<C>>, round: Round<C>, n: nat): seq<Finding<C>>
    requires n <= |round.items|
  {
    if n == 0 then findings
    else
      var before := AbsorbRound(rules, findings, round, n - 1);
      if Counts(round, round.items[n - 1]) then Absorb(rules, before, round.number, round.items[n - 1]) else before
  }

  /** Some groups share out the pool and make the findings. */
  ghost predicate Explained<C(!new)>(rules: Rules<C>, findings: seq<Finding<C>>, pool: multiset<Member<C>>) {
    exists groups: seq<seq<Member<C>>> :: Explains(rules, findings, groups, pool)
  }

  lemma ExplainItem<C(!new)>(rules: Rules<C>, findings: seq<Finding<C>>, pool: multiset<Member<C>>, round: Round<C>, item: Item<C>)
    requires Explained(rules, findings, pool)
    ensures Explained(rules, if Counts(round, item) then Absorb(rules, findings, round.number, item) else findings,
                      pool + if Counts(round, item) then multiset{Member(round.number, item)} else multiset{})
  {
    var groups: seq<seq<Member<C>>> :| Explains(rules, findings, groups, pool);
    if Counts(round, item) {
      ExplainsNext(rules, findings, groups, pool, Member(round.number, item));
    } else {
      assert pool + multiset{} == pool;
    }
  }

  lemma {:induction false} ExplainRound<C(!new)>(rules: Rules<C>, findings: seq<Finding<C>>, pool: multiset<Member<C>>, round: Round<C>, n: nat,
                                                  after: seq<Finding<C>>, total: multiset<Member<C>>)
    requires n <= |round.items| && Explained(rules, findings, pool)
    requires after == AbsorbRound(rules, findings, round, n) && total == pool + multiset(Counted(round, n))
    ensures Explained(rules, after, total)
    decreases n
  {
    if n == 0 {
      assert total == pool;
    } else {
      var before, some := AbsorbRound(rules, findings, round, n - 1), pool + multiset(Counted(round, n - 1));
      ExplainRound(rules, findings, pool, round, n - 1, before, some);
      PoolNext(round, n - 1, pool);
      ExplainItem(rules, before, some, round, round.items[n - 1]);
    }
  }

  /** One round's loop. */
  method MergeRound<C>(rules: Rules<C>, round: Round<C>, before: seq<Finding<C>>) returns (findings: seq<Finding<C>>)
    ensures findings == AbsorbRound(rules, before, round, |round.items|)
  {
    findings := before;
    var n := 0;
    while n < |round.items|
      invariant 0 <= n <= |round.items|
      invariant findings == AbsorbRound(rules, before, round, n)
    {
      if Counts(round, round.items[n]) { findings := Absorb(rules, findings, round.number, round.items[n]); }
      n := n + 1;
    }
  }

  lemma FirstRound<C>(rounds: seq<Round<C>>, n: nat)
    requires 0 < n <= |rounds|
    ensures AllCounted(rounds[..n]) == multiset(Counted(rounds[0], |rounds[0].items|)) + AllCounted(rounds[1..][..n - 1])
  {
    assert rounds[..n][1..] == rounds[1..][..n - 1];
  }

  lemma {:induction false} AllCountedStep<C>(rounds: seq<Round<C>>, n: nat)
    requires n < |rounds|
    ensures AllCounted(rounds[..n + 1]) == AllCounted(rounds[..n]) + multiset(Counted(rounds[n], |rounds[n].items|))
  {
    if n > 0 {
      AllCountedStep(rounds[1..], n - 1);
      FirstRound(rounds, n);
      FirstRound(rounds, n + 1);
    } else {
      assert rounds[..1][1..] == [] && rounds[..0] == [];
    }
  }

  /** The findings after the first n rounds. */
  function MergeAll<C>(rules: Rules<C>, rounds: seq<Round<C>>, n: nat): seq<Finding<C>>
    requires n <= |rounds|
  {
    if n == 0 then [] else AbsorbRound(rules, MergeAll(rules, rounds, n - 1), rounds[n - 1], |rounds[n - 1].items|)
  }

  /** One round more. */
  lemma ExplainNextRound<C(!new)>(rules: Rules<C>, findings: seq<Finding<C>>, rounds: seq<Round<C>>, n: nat)
    requires n < |rounds| && Explained(rules, findings, AllCounted(rounds[..n]))
    ensures Explained(rules, AbsorbRound(rules, findings, rounds[n], |rounds[n].items|), AllCounted(rounds[..n + 1]))
  {
    AllCountedStep(rounds, n);
    ExplainRound(rules, findings, AllCounted(rounds[..n]), rounds[n], |rounds[n].items|,
                 AbsorbRound(rules, findings, rounds[n], |rounds[n].items|), AllCounted(rounds[..n + 1]));
  }

  /** Every item that counts goes into exactly one finding, and each finding is
      what its own items make of it. */
  lemma {:induction false} MergeExplained<C(!new)>(rules: Rules<C>, rounds: seq<Round<C>>, n: nat)
    requires n <= |rounds|
    ensures Explained(rules, MergeAll(rules, rounds, n), AllCounted(rounds[..n]))
    decreases n
  {
    if n == 0 {
      assert Explains(rules, [], [], multiset{});
    } else {
      MergeExplained(rules, rounds, n - 1);
      ExplainNextRound(rules, MergeAll(rules, rounds, n - 1), rounds, n - 1);
    }
  }

  /** `_merge_findings` before conflicts are settled. */
  method MergeFindings<C>(rules: Rules<C>, rounds: seq<Round<C>>) returns (findings: seq<Finding<C>>)
    ensures findings == MergeAll(rules, rounds, |rounds|)
  {
    findings := [];
    var i := 0;
    while i < |rounds|
      invariant 0 <= i <= |rounds| && findings == MergeAll(rules, rounds, i)
    {
      findings := MergeRound(rules, rounds[i], findings);
      i := i + 1;
    }
  }

  // ---- keeping the ids of an earlier report ---------------------------------------------------------------

  datatype Previous = Previous(id: string, sources: set<(int, int)>)

  predicate Overlaps<C>(f: Finding<C>, p: Previous) {
    exists o <- f.sourceItems :: o in p.sources
  }

  predicate Reusable<C>(f: Finding<C>, p: Previous, used: set<string>) { p.id != "" && p.id !in used && Overlaps(f, p) }

  predicate FirstReusable<C>(f: Finding<C>, previous: seq<Previous>, used: set<string>, j: nat) {
    j < |previous| && Reusable(f, previous[j], used) && forall i :: 0 <= i < j ==> !Reusable(f, previous[i], used)
  }

  /** The first earlier id that is free and shares an origin. */
  function ChooseId<C>(f: Finding<C>, previous: seq<Previous>, used: set<string>): (r: Option<string>)
    ensures r.Some? ==> r.value !in used && exists p :: p in previous && p.id == r.value && Reusable(f, p, used)
    ensures r.None? ==> forall p <- previous :: !Reusable(f, p, used)
    ensures r.Some? ==> exists j: nat :: FirstReusable(f, previous, used, j) && previous[j].id == r.value
  {
    if previous == [] then None
    else if Reusable(f, previous[0], used) then
      assert FirstReusable(f, previous, used, 0);
      Some(previous[0].id)
    else
      var r := ChooseId(f, previous[1..], used);
      assert r.Some? ==> exists j: nat :: FirstReusable(f, previous[1..], used, j) && FirstReusable(f, previous, used, j + 1) && previous[j + 1].id == r.value;
      r
  }

  function UsedIds(chosen: seq<Option<string>>): set<string> {
    set c | c in chosen && c.Some? :: c.value
  }

  /** The earlier ids the first n findings take. */
  function Chosen<C>(findings: seq<Finding<C>>, previous: seq<Previous>, n: nat): (chosen: seq<Option<string>>)
    requires n <= |findings|
    ensures |chosen| == n
  {
    if n == 0 then []
    else
      var before := Chosen(findings, previous, n - 1);
      before + [ChooseId(findings[n - 1], previous, UsedIds(before))]
  }

  function WithId<C>(f: Finding<C>, id: Option<string>): Finding<C> { if id.Some? then f.(id := id.value) else f }

  /** The loop over findings and earlier items. */
  method AssignIds<C>(findings: seq<Finding<C>>, previous: seq<Previous>) returns (result: seq<Finding<C>>)
    ensures |result| == |findings|
    ensures forall k :: 0 <= k < |findings| ==> result[k] == WithId(findings[k], Chosen(findings, previous, |findings|)[k])
  {
    result := [];
    var used: set<string> := {};
    ghost var chosen: seq<Option<string>> := [];
    var n := 0;
    while n < |findings|
      invariant 0 <= n <= |findings| && |result| == n
      invariant chosen == Chosen(findings, previous, n) && used == UsedIds(chosen)
      invariant forall k :: 0 <= k < n ==> result[k] == WithId(findings[k], chosen[k])
    {
      var id := ChooseId(findings[n], previous, used);
      result := result + [if id.Some? then findings[n].(id := id.value) else findings[n]];
      NextUsed(chosen, id);
      chosen := chosen + [id];
      if id.Some? { used := used + {id.value}; }
      n := n + 1;
    }
  }

  lemma UsedMeans(chosen: seq<Option<string>>)
    ensures forall id :: id in UsedIds(chosen) <==> Some(id) in chosen
  {
  }

  lemma NextUsed(chosen: seq<Option<string>>, id: Option<string>)
    ensures UsedIds(chosen + [id]) == if id.Some? then UsedIds(chosen) + {id.value} else UsedIds(chosen)
  {
    UsedMeans(chosen);
    UsedMeans(chosen + [id]);
  }

  lemma ChosenBefore<C>(findings: seq<Finding<C>>, previous: seq<Previous>, n: nat)
    requires n < |findings|
    ensures Chosen(findings, previous, n + 1)[..n] == Chosen(findings, previous, n)
  {
  }

  lemma ChosenLast<C>(findings: seq<Finding<C>>, previous: seq<Previous>, n: nat)
    requires n < |findings|
    ensures Chosen(findings, previous, n + 1)[n] == ChooseId(findings[n], previous, UsedIds(Chosen(findings, previous, n)))
  {
  }

  lemma WholePrefix<T>(s: seq<T>, n: nat)
    requires n == |s|
    ensures s[..n] == s
  {
  }

  lemma PrefixOfPrefix<T>(s: seq<T>, n: nat, k: nat)
    requires k <= n <= |s|
    ensures s[..n][..k] == s[..k]
  {
  }

  lemma {:induction false} ChosenFirst<C>(findings: seq<Finding<C>>, previous: seq<Previous>, k: nat, n: nat)
    requires k <= n <= |findings|
    ensures Chosen(findings, previous, n)[..k] == Chosen(findings, previous, k)
    decreases n
  {
    if k == n {
      WholePrefix(Chosen(findings, previous, n), n);
    } else {
      ChosenBefore(findings, previous, n - 1);
      ChosenFirst(findings, previous, k, n - 1);
      PrefixOfPrefix(Chosen(findings, previous, n), n - 1, k);
    }
  }

  lemma ChosenPrefix<C>(findings: seq<Finding<C>>, previous: seq<Previous>, k: nat, n: nat)
    requires k < n <= |findings|
    ensures Chosen(findings, previous, n)[..k] == Chosen(findings, previous, k)
    ensures Chosen(findings, previous, n)[k] == ChooseId(findings[k], previous, UsedIds(Chosen(findings, previous, k)))
  {
    ChosenFirst(findings, previous, k, n);
    ChosenFirst(findings, previous, k + 1, n);
    ChosenLast(findings, previous, k);
    assert Chosen(findings, previous, n)[k] == Chosen(findings, previous, n)[..k + 1][k];
  }

  /** Earlier item j has an id and shares an origin, and those before it that do
      were taken. */
  predicate TakesFirst<C>(f: Finding<C>, previous: seq<Previous>, taken: seq<Option<string>>, j: nat) {
    && j < |previous| && previous[j].id != "" && Overlaps(f, previous[j])
    && forall i :: 0 <= i < j && previous[i].id != "" && Overlaps(f, previous[i]) ==> Some(previous[i].id) in taken
  }

  /** A finding takes the id of the first earlier one it shares an origin with and
      that no finding before it took; it keeps its own only when every such id is taken. */
  lemma ChosenMeans<C>(findings: seq<Finding<C>>, previous: seq<Previous>, k: nat)
    requires k < |findings|
    ensures var chosen := Chosen(findings, previous, |findings|);
      match chosen[k]
      case None => forall p <- previous :: p.id != "" && Overlaps(findings[k], p) ==> Some(p.id) in chosen[..k]
      case Some(id) => Some(id) !in chosen[..k] && exists j: nat :: TakesFirst(findings[k], previous, chosen[..k], j) && previous[j].id == id
  {
    var taken := Chosen(findings, previous, k);
    ChosenPrefix(findings, previous, k, |findings|);
    UsedMeans(taken);
    if Chosen(findings, previous, |findings|)[k].Some? {
      var j: nat :| FirstReusable(findings[k], previous, UsedIds(taken), j) && Chosen(findings, previous, |findings|)[k] == Some(previous[j].id);
      assert TakesFirst(findings[k], previous, taken, j);
    }
  }

  /** So two findings never take the same earlier id. */
  lemma EarlierIdsAreTakenOnce<C>(findings: seq<Finding<C>>, previous: seq<Previous>, i: nat, k: nat)
    requires i < k < |findings|
    ensures var chosen := Chosen(findings, previous, |findings|);
      chosen[i].Some? && chosen[k].Some? ==> chosen[i] != chosen[k]
  {
    var chosen := Chosen(findings, previous, |findings|);
    ChosenMeans(findings, previous, k);
    assert chosen[..k][i] == chosen[i];
  }

  // ---- the whole result ------------------------------------------------------------------------------------------

  predicate NoLater<C>(a: Round<C>, b: Round<C>) { a.number <= b.number }

  lemma {:induction false} InsertCounted<C>(r: Round<C>, rounds: seq<Round<C>>)
    ensures AllCounted(StableSort.Insert(NoLater, r, rounds)) == AllCounted([r] + rounds)
  {
    assert ([r] + rounds)[1..] == rounds;
    if rounds != [] && !NoLater(r, rounds[0]) {
      InsertCounted(r, rounds[1..]);
      var after := StableSort.Insert(NoLater, r, rounds);
      assert after[1..] == StableSort.Insert(NoLater, r, rounds[1..]) && ([r] + rounds[1..])[1..] == rounds[1..];
    }
  }

  /** Sorting the rounds changes nothing about which items count. */
  lemma {:induction false} SortCounted<C>(rounds: seq<Round<C>>)
    ensures AllCounted(StableSort.Sort(NoLater, rounds)) == AllCounted(rounds)
  {
    if rounds != [] {
      SortCounted(rounds[1..]);
      InsertCounted(rounds[0], StableSort.Sort(NoLater, rounds[1..]));
      var rest := StableSort.Sort(NoLater, rounds[1..]);
      assert ([rounds[0]] + rest)[1..] == rest;
    }
  }

  function SettleAll<C>(findings: seq<Finding<C>>): (r: seq<Finding<C>>)
    ensures |r| == |findings| && forall k :: 0 <= k < |r| ==> r[k] == Settle(findings[k])
  {
    if findings == [] then [] else [Settle(findings[0])] + SettleAll(findings[1..])
  }

  /** The findings of a report, with conflicts settled. */
  function Settled<C>(rules: Rules<C>, rounds: seq<Round<C>>): seq<Finding<C>> {
    var sorted := StableSort.Sort(NoLater, rounds);
    SettleAll(MergeAll(rules, sorted, |sorted|))
  }

  /** Nothing is lost or invented: the items of the completed rounds, except
      non-issues, are shared out among the findings, and each finding is what its
      own items make of it, in whatever order the rounds are given. No item joins
      a finding it is not the same as. */
  lemma NothingIsLost<C(!new)>(rules: Rules<C>, rounds: seq<Round<C>>) returns (groups: seq<seq<Member<C>>>)
    ensures Proper(groups) && Pool(groups) == AllCounted(rounds) && Settled(rules, rounds) == SettleAll(FoldAll(rules, groups))
    ensures AllAlike(rules, groups)
  {
    var sorted := StableSort.Sort(NoLater, rounds);
    SortCounted(rounds);
    MergeExplained(rules, sorted, |sorted|);
    assert sorted[..|sorted|] == sorted;
    groups :| Explains(rules, MergeAll(rules, sorted, |sorted|), groups, AllCounted(sorted));
  }

  /** `build_round_result` */
  method BuildRoundResult<C>(rules: Rules<C>, rounds: seq<Round<C>>, previous: seq<Previous>) returns (items: seq<Finding<C>>)
    ensures var settled := Settled(rules, rounds);
      |items| == |settled| && forall k :: 0 <= k < |items| ==> items[k] == WithId(settled[k], Chosen(settled, previous, |settled|)[k])
  {
    var sorted := StableSort.Sort(NoLater, rounds);
    var findings := MergeFindings(rules, sorted);
    items := AssignIds(SettleAll(findings), previous);
  }
}
