/**
 * The strategy profile of a sample: how many agents play each strategy,
 * the sorted list of strategies, and the profile key, which is that list
 * with every name preceded by its agent count divided by 4, joined by a
 * single space.
 */
module Profiles {
  import opened JavaStrings
  import opened Sorting
  import opened Utils
  import opened Market

  /** The strategies of the agents, in <agent> order. */
  function Names(agents: seq<Agent>): (r: seq<string>)
    ensures |r| == |agents| && forall i :: 0 <= i < |agents| ==> r[i] == agents[i].strategy
  {
    seq(|agents|, i requires 0 <= i < |agents| => agents[i].strategy)
  }

  /** The distinct names in order of first appearance. */
  function FirstSeen(names: seq<string>): (r: seq<string>)
    ensures Distinct(r)
    ensures forall x :: x in r <==> x in names
  {
    if |names| == 0 then []
    else
      var init := names[..|names| - 1];
      var x := names[|names| - 1];
      assert names == init + [x];
      var f := FirstSeen(init);
      if x in f then f else f + [x]
  }

  /** The number of agents per strategy, built one agent at a time. */
  function Tally(names: seq<string>): map<string, int> {
    if |names| == 0 then map[]
    else
      var m := Tally(names[..|names| - 1]);
      var x := names[|names| - 1];
      m[x := if x in m then m[x] + 1 else 1]
  }

  /** The tally holds exactly the strategies played, each with its number of agents. */
  lemma {:induction false} TallyCounts(names: seq<string>)
    ensures forall x :: x in Tally(names) <==> x in names
    ensures forall x :: x in Tally(names) ==> Tally(names)[x] == multiset(names)[x]
  {
    if |names| > 0 {
      var init := names[..|names| - 1];
      assert names == init + [names[|names| - 1]];
      TallyCounts(init);
    }
  }

  /** The sum of the scores per strategy, built one agent at a time. */
  function ScoreSums(names: seq<string>, scores: seq<real>): map<string, real>
    requires |names| == |scores|
  {
    if |names| == 0 then map[]
    else
      var n := |names| - 1;
      var m := ScoreSums(names[..n], scores[..n]);
      var x := names[n];
      m[x := (if x in m then m[x] else 0.0) + scores[n]]
  }

  lemma {:induction false} ScoreSumsKeys(names: seq<string>, scores: seq<real>)
    requires |names| == |scores|
    ensures forall x :: x in ScoreSums(names, scores) <==> x in names
  {
    if |names| > 0 {
      var n := |names| - 1;
      assert names == names[..n] + [names[n]];
      ScoreSumsKeys(names[..n], scores[..n]);
    }
  }

  /** The reference sum: the scores of the agents that play x, in agent order. */
  function ScoreSumFor(names: seq<string>, scores: seq<real>, x: string): real
    requires |names| == |scores|
  {
    if |names| == 0 then 0.0
    else
      var n := |names| - 1;
      ScoreSumFor(names[..n], scores[..n], x) + (if names[n] == x then scores[n] else 0.0)
  }

  /** Every played strategy's entry is the sum of exactly its agents' scores. */
  lemma {:induction false} ScoreSumsMeaning(names: seq<string>, scores: seq<real>)
    requires |names| == |scores|
    ensures forall x :: x in ScoreSums(names, scores) ==> ScoreSums(names, scores)[x] == ScoreSumFor(names, scores, x)
  {
    if |names| > 0 {
      var n := |names| - 1;
      ScoreSumsMeaning(names[..n], scores[..n]);
      ScoreSumsKeys(names[..n], scores[..n]);
      if names[n] !in names[..n] {
        ScoreSumForAbsent(names[..n], scores[..n], names[n]);
      }
    }
  }

  /** v added up n times. */
  function Copies(n: nat, v: real): real {
    if n == 0 then 0.0 else Copies(n - 1, v) + v
  }

  lemma {:induction false} CopiesMean(n: nat, v: real)
    requires n > 0
    ensures Copies(n, v) / (n as real) == v
  {
    CopiesTimes(n, v);
  }

  lemma {:induction false} CopiesTimes(n: nat, v: real)
    ensures Copies(n, v) == (n as real) * v
  {
    if n > 0 {
      CopiesTimes(n - 1, v);
    }
  }

  /** When every agent that plays x scores v, x's sum is v once per agent that plays x. */
  lemma {:induction false} ScoreSumForConstant(names: seq<string>, scores: seq<real>, x: string, v: real)
    requires |names| == |scores|
    requires forall i :: 0 <= i < |names| && names[i] == x ==> scores[i] == v
    ensures ScoreSumFor(names, scores, x) == Copies(multiset(names)[x], v)
  {
    if |names| > 0 {
      var n := |names| - 1;
      assert names == names[..n] + [names[n]];
      ScoreSumForConstant(names[..n], scores[..n], x, v);
    }
  }

  lemma {:induction false} ScoreSumForAbsent(names: seq<string>, scores: seq<real>, x: string)
    requires |names| == |scores| && x !in names
    ensures ScoreSumFor(names, scores, x) == 0.0
  {
    if |names| > 0 {
      var n := |names| - 1;
      assert names == names[..n] + [names[n]];
      ScoreSumForAbsent(names[..n], scores[..n], x);
    }
  }

  function CountTotal(strategies: seq<string>, m: map<string, int>): int {
    if |strategies| == 0 then 0
    else
      var s := strategies[|strategies| - 1];
      CountTotal(strategies[..|strategies| - 1], m) + (if s in m then m[s] else 0)
  }

  lemma {:induction false} CountTotalAgree(strategies: seq<string>, m: map<string, int>, m': map<string, int>)
    requires forall s :: s in strategies ==> (s in m <==> s in m') && (s in m ==> m[s] == m'[s])
    ensures CountTotal(strategies, m) == CountTotal(strategies, m')
  {
    if |strategies| > 0 {
      CountTotalAgree(strategies[..|strategies| - 1], m, m');
    }
  }

  lemma {:induction false} CountTotalBump(strategies: seq<string>, m: map<string, int>, x: string)
    requires Distinct(strategies) && x in strategies && x in m
    ensures CountTotal(strategies, m[x := m[x] + 1]) == CountTotal(strategies, m) + 1
  {
    var init := strategies[..|strategies| - 1];
    var last := strategies[|strategies| - 1];
    assert strategies == init + [last];
    if last == x {
      assert x !in init;
      CountTotalAgree(init, m, m[x := m[x] + 1]);
    } else {
      assert x in init;
      CountTotalBump(init, m, x);
    }
  }

  /** Every agent adds exactly one to one strategy's count, so the counts total the number of agents. */
  lemma {:induction false} TallyTotal(names: seq<string>)
    ensures CountTotal(FirstSeen(names), Tally(names)) == |names|
  {
    if |names| > 0 {
      var init := names[..|names| - 1];
      var x := names[|names| - 1];
      TallyTotal(init);
      TallyCounts(init);
      var f, m := FirstSeen(init), Tally(init);
      if x in f {
        CountTotalBump(f, m, x);
      } else {
        assert FirstSeen(names) == f + [x];
        CountTotalAgree(f, m, m[x := 1]);
      }
    }
  }

  /**
   * The loop that registers each agent's strategy on first sight and
   * counts the others (followed by Collections.sort in the callers).
   */
  method TallyFirstSeen(names: seq<string>) returns (strategies: seq<string>, count: map<string, int>)
    ensures strategies == FirstSeen(names)
    ensures count == Tally(names)
  {
    strategies := [];
    count := map[];
    for i := 0 to |names|
      invariant strategies == FirstSeen(names[..i])
      invariant count == Tally(names[..i])
    {
      FirstSeenStep(names, i);
      var strategy := names[i];
      if strategy !in strategies {
        strategies := strategies + [strategy];
        count := count[strategy := 1];
      } else {
        count := count[strategy := count[strategy] + 1];
      }
    }
    assert names[..|names|] == names;
  }

  /** One agent more: registered if new, counted either way; FirstSeen and Tally know the same strategies. */
  lemma FirstSeenStep(names: seq<string>, i: nat)
    requires i < |names|
    ensures var p, x := names[..i], names[i];
      && FirstSeen(names[..i + 1]) == (if x in FirstSeen(p) then FirstSeen(p) else FirstSeen(p) + [x])
      && Tally(names[..i + 1]) == Tally(p)[x := if x in Tally(p) then Tally(p)[x] + 1 else 1]
      && (x in Tally(p) <==> x in FirstSeen(p))
  {
    var p, x := names[..i], names[i];
    assert names[..i + 1][..i] == p;
    TallyCounts(p);
  }

  /**
   * The loop that adds one to the agent's strategy count and its score to
   * the strategy's sum, creating both entries at zero on first sight.
   */
  method SumByStrategy(names: seq<string>, scores: seq<real>) returns (counts: map<string, int>, sums: map<string, real>)
    requires |names| == |scores|
    ensures counts == Tally(names)
    ensures sums == ScoreSums(names, scores)
  {
    counts := map[];
    sums := map[];
    for i := 0 to |names|
      invariant counts == Tally(names[..i])
      invariant sums == ScoreSums(names[..i], scores[..i])
    {
      TallyStep(names, i);
      ScoreSumsStep(names, scores, i);
      var strategy := names[i];
      var c := if strategy in counts then counts[strategy] else 0;
      var t := if strategy in sums then sums[strategy] else 0.0;
      counts := counts[strategy := c + 1];
      sums := sums[strategy := t + scores[i]];
    }
    assert names[..|names|] == names;
    assert scores[..|scores|] == scores;
  }

  lemma TallyStep(names: seq<string>, i: int)
    requires 0 <= i < |names|
    ensures var m := Tally(names[..i]);
      Tally(names[..i + 1]) == m[names[i] := if names[i] in m then m[names[i]] + 1 else 1]
  {
    assert names[..i + 1][..i] == names[..i];
  }

  lemma ScoreSumsStep(names: seq<string>, scores: seq<real>, i: int)
    requires |names| == |scores| && 0 <= i < |names|
    ensures var m := ScoreSums(names[..i], scores[..i]);
      ScoreSums(names[..i + 1], scores[..i + 1]) == m[names[i] := (if names[i] in m then m[names[i]] else 0.0) + scores[i]]
  {
    assert names[..i + 1][..i] == names[..i];
    assert scores[..i + 1][..i] == scores[..i];
  }

  /**
   * The key set of the count map in compareTo order: the keys are taken in
   * whatever order the map yields them and sorted.
   */
  method SortedKeys(keys: set<string>) returns (r: seq<string>)
    ensures StrictlySorted(r)
    ensures forall x :: x in r <==> x in keys
  {
    r := [];
    var rest := keys;
    while rest != {}
      invariant StrictlySorted(r)
      invariant forall x :: x in keys <==> x in r || x in rest
      invariant forall x :: x in rest ==> x !in r
      decreases |rest|
    {
      var x :| x in rest;
      InsertSorted(x, r);
      var r' := Insert(x, r);
      assert forall y :: y in r' <==> y in multiset(r');
      assert forall y :: y in r <==> y in multiset(r);
      r := r';
      rest := rest - {x};
    }
  }

  /** The sample's strategies in compareTo order. */
  function SortedStrategies(names: seq<string>): seq<string> {
    SortStrings(FirstSeen(names))
  }

  /** Sorting the first-seen list and sorting the count map's key set give the same list. */
  lemma SortedStrategiesUnique(names: seq<string>, r: seq<string>)
    requires StrictlySorted(r)
    requires forall x :: x in r <==> x in names
    ensures r == SortedStrategies(names)
  {
    var f := FirstSeen(names);
    SortStringsCorrect(f);
    var sorted := SortStrings(f);
    forall x ensures x in sorted <==> x in r {
      assert x in sorted <==> x in multiset(sorted);
      assert x in f <==> x in multiset(f);
    }
    SortedUnique(sorted, r);
  }

  lemma SortedStrategiesProperties(names: seq<string>)
    ensures StrictlySorted(SortedStrategies(names)) && Distinct(SortedStrategies(names))
    ensures forall x :: x in SortedStrategies(names) <==> x in names
  {
    var f := FirstSeen(names);
    SortStringsCorrect(f);
    var sorted := SortStrings(f);
    forall x ensures x in sorted <==> x in names {
      assert x in sorted <==> x in multiset(sorted);
      assert x in f <==> x in multiset(f);
    }
    forall i, j | 0 <= i < j < |sorted| ensures sorted[i] != sorted[j] {
      LessIrreflexive(sorted[i]);
    }
  }

  /** The profileBuilder array: count / 4 and then the name, for every strategy in order. */
  function KeyTokens(strategies: seq<string>, counts: map<string, int>): (r: seq<string>)
    requires forall s :: s in strategies ==> s in counts
    ensures |r| == 2 * |strategies|
  {
    if |strategies| == 0 then []
    else
      var n := |strategies| - 1;
      var s := strategies[n];
      KeyTokens(strategies[..n], counts) + [IntToString(counts[s] / 4), s]
  }

  /** Strategy j puts its count / 4 at token 2j and its name at token 2j + 1. */
  lemma {:induction false} KeyTokensAt(strategies: seq<string>, counts: map<string, int>, j: int)
    requires forall s :: s in strategies ==> s in counts
    requires 0 <= j < |strategies|
    ensures var r := KeyTokens(strategies, counts);
      r[2 * j] == IntToString(counts[strategies[j]] / 4) && r[2 * j + 1] == strategies[j]
  {
    var n := |strategies| - 1;
    var init := strategies[..n];
    var prev := KeyTokens(init, counts);
    var r := KeyTokens(strategies, counts);
    var name := strategies[j];
    var count := IntToString(counts[name] / 4);
    assert r == prev + [IntToString(counts[strategies[n]] / 4), strategies[n]];
    if j < n {
      assert forall s :: s in init ==> s in strategies;
      KeyTokensAt(init, counts, j);
      assert init[j] == name;
      assert prev[2 * j] == count && prev[2 * j + 1] == name;
      assert r[2 * j] == prev[2 * j] && r[2 * j + 1] == prev[2 * j + 1];
    } else {
      assert 2 * j == |prev| && r[2 * j] == count && r[2 * j + 1] == name;
    }
  }

  /** Every token of a key is a non-empty word without a space, when the names are. */
  lemma {:induction false} KeyTokensAreWords(strategies: seq<string>, counts: map<string, int>)
    requires forall s :: s in strategies ==> s in counts && IsToken(s)
    ensures forall i :: 0 <= i < |KeyTokens(strategies, counts)| ==> IsToken(KeyTokens(strategies, counts)[i])
  {
    if |strategies| > 0 {
      var n := |strategies| - 1;
      assert forall s :: s in strategies[..n] ==> s in strategies;
      KeyTokensAreWords(strategies[..n], counts);
      var tokens := KeyTokens(strategies, counts);
      assert tokens == KeyTokens(strategies[..n], counts) + [IntToString(counts[strategies[n]] / 4), strategies[n]];
      assert IsToken(strategies[n]);
    }
  }

  /** The profile key of strategies with the given agent counts. */
  function ProfileKey(strategies: seq<string>, counts: map<string, int>): string
    requires forall s :: s in strategies ==> s in counts
  {
    Joined(KeyTokens(strategies, counts), " ")
  }

  /** The profile key of the sample whose agents play names. */
  function SampleKey(names: seq<string>): string {
    SortedStrategiesProperties(names);
    TallyCounts(names);
    ProfileKey(SortedStrategies(names), Tally(names))
  }

  /** Fills profileBuilder two entries per strategy and joins it on a single space. */
  method BuildProfileKey(strategies: seq<string>, counts: map<string, int>) returns (key: string)
    requires |strategies| > 0
    requires forall s :: s in strategies ==> s in counts
    ensures key == ProfileKey(strategies, counts)
  {
    var profileBuilder := new string[2 * |strategies|];
    var count := 0;
    for j := 0 to |strategies|
      invariant count == 2 * j
      invariant profileBuilder[..count] == KeyTokens(strategies[..j], counts)
    {
      ghost var before := profileBuilder[..count];
      profileBuilder[count] := IntToString(counts[strategies[j]] / 4);
      count := count + 1;
      profileBuilder[count] := strategies[j];
      count := count + 1;
      assert profileBuilder[..count] == before + [IntToString(counts[strategies[j]] / 4), strategies[j]];
      assert strategies[..j + 1][..j] == strategies[..j];
    }
    assert strategies[..|strategies|] == strategies;
    var tokens := KeyTokens(strategies, counts);
    assert profileBuilder[..] == profileBuilder[..count] == tokens;
    AppendedIsJoinedThenSeparator(tokens, " ");
    key := Join(profileBuilder[..], " ");
  }

  /**
   * The block that names a sample's profile: tally the strategies in order
   * of first sight, sort the list and build the key from the tally.
   */
  method IdentifyProfile(names: seq<string>) returns (strategies: seq<string>, key: string)
    requires |names| > 0
    ensures strategies == SortedStrategies(names)
    ensures key == SampleKey(names)
  {
    var firstSeen, count := TallyFirstSeen(names);
    strategies := SortList(firstSeen);
    TallyCounts(names);
    SortedStrategiesProperties(names);
    assert names[0] in strategies;
    key := BuildProfileKey(strategies, count);
  }

  /** The strategy names read back from a key: every second token of its split on a space. */
  function StrategiesOfKey(key: string): (r: seq<string>)
  {
    EverySecond(SplitOnSpace(key))
  }

  /** Tokens 1, 3, 5, ...: the names of a count-then-name token list. */
  function EverySecond(tokens: seq<string>): seq<string> {
    seq(|tokens| / 2, j requires 0 <= j < |tokens| / 2 => tokens[2 * j + 1])
  }

  /** A list that puts name j at token 2j + 1 yields its names back. */
  lemma EverySecondNames(tokens: seq<string>, names: seq<string>)
    requires |tokens| == 2 * |names|
    requires forall j :: 0 <= j < |names| ==> tokens[2 * j + 1] == names[j]
    ensures EverySecond(tokens) == names
  {
    assert |tokens| / 2 == |names|;
  }

  /**
   * The key determines the strategy list: names without spaces are recovered
   * from the key, so two samples with the same key have the same sorted
   * strategies and the same number of payoff slots.
   */
  lemma KeyDeterminesStrategies(strategies: seq<string>, counts: map<string, int>)
    requires |strategies| > 0
    requires forall s :: s in strategies ==> s in counts && IsToken(s)
    ensures StrategiesOfKey(ProfileKey(strategies, counts)) == strategies
  {
    var tokens := KeyTokens(strategies, counts);
    KeyTokensAreWords(strategies, counts);
    SplitJoined(tokens);
    forall j | 0 <= j < |strategies| ensures tokens[2 * j + 1] == strategies[j] {
      KeyTokensAt(strategies, counts, j);
    }
    EverySecondNames(tokens, strategies);
  }

  /** The profile key depends only on which strategies the agents play and how often, not on agent order. */
  lemma SampleKeyPermutation(a: seq<string>, b: seq<string>)
    requires multiset(a) == multiset(b)
    ensures SampleKey(a) == SampleKey(b)
  {
    forall x ensures x in a <==> x in b {
      assert x in a <==> x in multiset(a);
      assert x in b <==> x in multiset(b);
    }
    SortListingIndependent(FirstSeen(a), FirstSeen(b));
    TallyCounts(a);
    TallyCounts(b);
    assert Tally(a) == Tally(b);
  }

  /** Four agents, two per strategy: each count divided by 4 is 0, so the key is "0 A 0 B". */
  lemma SampleKeyExample()
    ensures SampleKey(["A", "B", "B", "A"]) == "0 A 0 B"
  {
    var names := ["A", "B", "B", "A"];
    ExampleStrategies();
    ExampleTally();
    var counts := map["A" := 2, "B" := 2];
    assert IntToString(0) == "0";
    assert ["A", "B"][..1] == ["A"] && ["A"][..0] == [];
    assert KeyTokens(["A"], counts) == ["0", "A"];
    assert KeyTokens(["A", "B"], counts) == ["0", "A", "0", "B"];
    ExampleJoin();
  }

  lemma ExampleJoin()
    ensures Joined(["0", "A", "0", "B"], " ") == "0 A 0 B"
  {
    var t := ["0", "A", "0", "B"];
    assert t[..3] == ["0", "A", "0"] && t[..3][..2] == ["0", "A"] && t[..3][..2][..1] == ["0"];
    assert Joined(["0", "A"], " ") == "0 A";
    assert Joined(["0", "A", "0"], " ") == "0 A 0";
  }

  lemma ExampleStrategies()
    ensures SortedStrategies(["A", "B", "B", "A"]) == ["A", "B"]
  {
    var names := ["A", "B", "B", "A"];
    assert names[..1] == ["A"] && names[..2] == ["A", "B"] && names[..3] == ["A", "B", "B"];
    assert FirstSeen(names[..1]) == ["A"] by {
      assert names[..1][..0] == [];
    }
    assert FirstSeen(names[..2]) == ["A", "B"] by {
      assert names[..2][..1] == names[..1];
    }
    assert FirstSeen(names[..3]) == ["A", "B"] by {
      assert names[..3][..2] == names[..2];
    }
    assert FirstSeen(names) == ["A", "B"] by {
      assert names[..3] == names[..|names| - 1];
    }
    assert Less("A", "B");
    assert SortStrings(["A", "B"]) == ["A", "B"] by {
      assert ["A", "B"][1..] == ["B"];
      assert SortStrings(["B"]) == ["B"];
    }
  }

  lemma ExampleTally()
    ensures Tally(["A", "B", "B", "A"]) == map["A" := 2, "B" := 2]
  {
    var names := ["A", "B", "B", "A"];
    assert names[..1] == ["A"] && names[..2] == ["A", "B"] && names[..3] == ["A", "B", "B"];
    assert Tally(names[..1]) == map["A" := 1] by {
      assert names[..1][..0] == [];
    }
    assert Tally(names[..2]) == map["A" := 1, "B" := 1] by {
      assert names[..2][..1] == names[..1];
    }
    assert Tally(names[..3]) == map["A" := 1, "B" := 2] by {
      assert names[..3][..2] == names[..2];
    }
    assert names[..3] == names[..|names| - 1];
  }

  /**
   * strategies.indexOf(strategy) finds an agent's strategy in the sorted
   * list, at the one position that holds it.
   */
  lemma IndexOfAgentStrategy(names: seq<string>, i: int)
    requires 0 <= i < |names|
    ensures var sorted := SortedStrategies(names);
      var j := IndexOf(sorted, names[i]);
      0 <= j < |sorted| && sorted[j] == names[i]
  {
    SortedStrategiesProperties(names);
  }
}
