/** Where the items of the rounds end up: each counted item is a source of
    exactly one finding of the merged report. */
module RoundSources {
  import opened RoundMerge
  import StableSort

  type Origin = (int, int)

  /** All sources the findings list, with repetitions. */
  ghost function Sources<C>(findings: seq<Finding<C>>): multiset<Origin> {
    if findings == [] then multiset{} else multiset(findings[0].sourceItems) + Sources(findings[1..])
  }

  /** The origins of the first n items of a round that count. */
  ghost function RoundOrigins<C>(round: Round<C>, n: nat): multiset<Origin>
    requires n <= |round.items|
  {
    if n == 0 then multiset{}
    else RoundOrigins(round, n - 1) + if Counts(round, round.items[n - 1]) then multiset{(round.number, round.items[n - 1].index)} else multiset{}
  }

  ghost function Origins<C>(rounds: seq<Round<C>>): multiset<Origin> {
    if rounds == [] then multiset{} else RoundOrigins(rounds[0], |rounds[0].items|) + Origins(rounds[1..])
  }

  // ---- the merge conserves sources ---------------------------------------------------------

  lemma {:induction false} AbsorbSources<C>(rules: Rules<C>, findings: seq<Finding<C>>, round: int, item: Item<C>)
    ensures Sources(Absorb(rules, findings, round, item)) == Sources(findings) + multiset{(round, item.index)}
  {
    var after := Absorb(rules, findings, round, item);
    if findings == [] {
      assert after[1..] == [];
    } else if rules.same(findings[0].content, item.content) {
      assert after[1..] == findings[1..];
    } else {
      AbsorbSources(rules, findings[1..], round, item);
      assert after[1..] == Absorb(rules, findings[1..], round, item);
    }
  }

  lemma Regroup(a: multiset<Origin>, b: multiset<Origin>, c: multiset<Origin>)
    ensures a + b + c == a + (b + c)
  {
  }

  /** One item more. */
  lemma ItemKeepsSources<C>(rules: Rules<C>, findings: seq<Finding<C>>, round: Round<C>, n: nat, before: multiset<Origin>)
    requires n < |round.items| && Sources(findings) == before + RoundOrigins(round, n)
    ensures Sources(if Counts(round, round.items[n]) then Absorb(rules, findings, round.number, round.items[n]) else findings)
         == before + RoundOrigins(round, n + 1)
  {
    if Counts(round, round.items[n]) {
      AbsorbSources(rules, findings, round.number, round.items[n]);
      Regroup(before, RoundOrigins(round, n), multiset{(round.number, round.items[n].index)});
    } else {
      assert RoundOrigins(round, n) + multiset{} == RoundOrigins(round, n);
    }
  }

  lemma {:induction false} RoundKeepsSources<C>(rules: Rules<C>, findings: seq<Finding<C>>, round: Round<C>, n: nat)
    requires n <= |round.items|
    ensures Sources(AbsorbRound(rules, findings, round, n)) == Sources(findings) + RoundOrigins(round, n)
  {
    if n > 0 {
      RoundKeepsSources(rules, findings, round, n - 1);
      ItemKeepsSources(rules, AbsorbRound(rules, findings, round, n - 1), round, n - 1, Sources(findings));
    } else {
      assert Sources(findings) + multiset{} == Sources(findings);
    }
  }

  lemma {:induction false} OriginsOfFirst<C>(rounds: seq<Round<C>>, n: nat)
    requires n < |rounds|
    ensures Origins(rounds[..n + 1]) == Origins(rounds[..n]) + RoundOrigins(rounds[n], |rounds[n].items|)
  {
    assert rounds[..n + 1][1..] == rounds[1..][..n];
    if n > 0 {
      OriginsOfFirst(rounds[1..], n - 1);
      assert rounds[..n][1..] == rounds[1..][..n - 1];
    } else {
      assert rounds[..0] == [] && rounds[1..][..0] == [];
    }
  }

  /** One round more. */
  lemma RoundAddsSources<C>(rules: Rules<C>, findings: seq<Finding<C>>, rounds: seq<Round<C>>, n: nat)
    requires n < |rounds| && Sources(findings) == Origins(rounds[..n])
    ensures Sources(AbsorbRound(rules, findings, rounds[n], |rounds[n].items|)) == Origins(rounds[..n + 1])
  {
    RoundKeepsSources(rules, findings, rounds[n], |rounds[n].items|);
    OriginsOfFirst(rounds, n);
  }

  lemma {:induction false} MergeKeepsSources<C>(rules: Rules<C>, rounds: seq<Round<C>>, n: nat)
    requires n <= |rounds|
    ensures Sources(MergeAll(rules, rounds, n)) == Origins(rounds[..n])
  {
    if n > 0 {
      MergeKeepsSources(rules, rounds, n - 1);
      RoundAddsSources(rules, MergeAll(rules, rounds, n - 1), rounds, n - 1);
    }
  }

  lemma {:induction false} InsertOrigins<C>(r: Round<C>, rounds: seq<Round<C>>)
    ensures Origins(StableSort.Insert(NoLater, r, rounds)) == Origins(rounds) + RoundOrigins(r, |r.items|)
  {
    assert ([r] + rounds)[1..] == rounds;
    if rounds != [] && !NoLater(r, rounds[0]) {
      InsertOrigins(r, rounds[1..]);
      assert StableSort.Insert(NoLater, r, rounds)[1..] == StableSort.Insert(NoLater, r, rounds[1..]);
    }
  }

  lemma {:induction false} SortOrigins<C>(rounds: seq<Round<C>>)
    ensures Origins(StableSort.Sort(NoLater, rounds)) == Origins(rounds)
  {
    if rounds != [] {
      SortOrigins(rounds[1..]);
      InsertOrigins(rounds[0], StableSort.Sort(NoLater, rounds[1..]));
    }
  }

  lemma {:induction false} SettleKeepsSources<C>(findings: seq<Finding<C>>)
    ensures Sources(SettleAll(findings)) == Sources(findings)
  {
    if findings != [] { SettleKeepsSources(findings[1..]); }
  }

  /** The findings of a report list each counted item as often as it occurs. */
  lemma SourcesAreConserved<C>(rules: Rules<C>, rounds: seq<Round<C>>)
    ensures Sources(Settled(rules, rounds)) == Origins(rounds)
  {
    var sorted := StableSort.Sort(NoLater, rounds);
    MergeKeepsSources(rules, sorted, |sorted|);
    assert sorted[..|sorted|] == sorted;
    SettleKeepsSources(MergeAll(rules, sorted, |sorted|));
    SortOrigins(rounds);
  }

  // ---- each item once ------------------------------------------------------------------------

  ghost predicate HasIndex<C>(items: seq<Item<C>>, index: int) { exists item <- items :: item.index == index }

  /** The items of a round are numbered apart. */
  ghost predicate IndicesApart<C>(items: seq<Item<C>>) {
    items == [] || (!HasIndex(items[..|items| - 1], items[|items| - 1].index) && IndicesApart(items[..|items| - 1]))
  }

  ghost predicate HasNumber<C>(rounds: seq<Round<C>>, number: int) { exists r <- rounds :: r.number == number }

  ghost predicate NumbersApart<C>(rounds: seq<Round<C>>) {
    rounds == [] || (!HasNumber(rounds[1..], rounds[0].number) && IndicesApart(rounds[0].items) && NumbersApart(rounds[1..]))
  }

  ghost predicate CountsIn<C>(round: Round<C>, items: seq<Item<C>>, o: Origin) {
    round.number == o.0 && round.status == "completed" && exists item <- items :: item.kind != "non_issue" && item.index == o.1
  }

  /** The origin is that of an item which counts. */
  ghost predicate IsCounted<C>(rounds: seq<Round<C>>, o: Origin) { exists r <- rounds :: CountsIn(r, r.items, o) }

  lemma {:induction false} RoundOriginOnce<C>(round: Round<C>, n: nat, o: Origin)
    requires n <= |round.items| && IndicesApart(round.items[..n])
    ensures RoundOrigins(round, n)[o] == if CountsIn(round, round.items[..n], o) then 1 else 0
  {
    if n > 0 {
      var items := round.items[..n];
      assert items[..n - 1] == round.items[..n - 1];
      RoundOriginOnce(round, n - 1, o);
      assert items == items[..n - 1] + [round.items[n - 1]];
      assert CountsIn(round, items[..n - 1], o) ==> HasIndex(items[..n - 1], o.1);
    }
  }

  lemma {:induction false} OriginOnce<C>(rounds: seq<Round<C>>, o: Origin)
    requires NumbersApart(rounds)
    ensures Origins(rounds)[o] == if IsCounted(rounds, o) then 1 else 0
  {
    if rounds != [] {
      var r := rounds[0];
      OriginOnce(rounds[1..], o);
      assert r.items[..|r.items|] == r.items;
      RoundOriginOnce(r, |r.items|, o);
      assert rounds == [r] + rounds[1..];
      assert IsCounted(rounds[1..], o) ==> HasNumber(rounds[1..], o.0);
    }
  }

  /** The one finding that lists an origin listed once. */
  lemma {:induction false} OneHolder<C>(findings: seq<Finding<C>>, o: Origin) returns (k: nat)
    requires Sources(findings)[o] == 1
    ensures k < |findings| && multiset(findings[k].sourceItems)[o] == 1
    ensures forall j :: 0 <= j < |findings| && j != k ==> o !in findings[j].sourceItems
  {
    if multiset(findings[0].sourceItems)[o] == 1 {
      k := 0;
      NoHolder(findings[1..], o);
      assert forall j :: 0 < j < |findings| ==> findings[j] == findings[1..][j - 1];
    } else {
      assert o !in multiset(findings[0].sourceItems);
      var rest := OneHolder(findings[1..], o);
      k := rest + 1;
      assert forall j :: 0 < j < |findings| ==> findings[j] == findings[1..][j - 1];
    }
  }

  lemma {:induction false} NoHolder<C>(findings: seq<Finding<C>>, o: Origin)
    requires Sources(findings)[o] == 0
    ensures forall j :: 0 <= j < |findings| ==> o !in findings[j].sourceItems
  {
    if findings != [] {
      assert o !in multiset(findings[0].sourceItems);
      NoHolder(findings[1..], o);
      assert forall j :: 0 < j < |findings| ==> findings[j] == findings[1..][j - 1];
    }
  }

  /** The report lists the origin exactly once, in exactly one finding. */
  ghost predicate ListedOnce<C>(findings: seq<Finding<C>>, o: Origin) {
    exists k :: 0 <= k < |findings| && multiset(findings[k].sourceItems)[o] == 1
      && forall j :: 0 <= j < |findings| && j != k ==> o !in findings[j].sourceItems
  }

  /** With rounds and items numbered apart, an origin is listed by exactly one
      finding, and there once, if it is that of an item which counts, and by
      none otherwise. */
  lemma EveryItemHasOneFinding<C>(rules: Rules<C>, rounds: seq<Round<C>>, o: Origin)
    requires NumbersApart(rounds)
    ensures IsCounted(rounds, o) ==> ListedOnce(Settled(rules, rounds), o)
    ensures !IsCounted(rounds, o) ==> forall f <- Settled(rules, rounds) :: o !in f.sourceItems
  {
    SourcesAreConserved(rules, rounds);
    OriginOnce(rounds, o);
    if IsCounted(rounds, o) { var _ := OneHolder(Settled(rules, rounds), o); }
    else { NoHolder(Settled(rules, rounds), o); }
  }
}
