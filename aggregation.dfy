/**
 * The per-profile tables that the payoff programs build over the samples.
 * Each sample contributes its profile key, its sorted strategies, its
 * agent count per strategy and the average score per strategy; the tables
 * hold per key the number of samples, the per-strategy sums of those
 * averages, the strategy list and the strategy counts divided by 4.  A
 * second pass over the same samples sums the squared deviations of every
 * sample's averages from the profile averages.
 */
module Aggregation {
  import opened Sorting
  import opened Market
  import opened Profiles
  import opened JavaStrings
  import opened Report
  import opened Wrappers
  import opened Readers

  /** What one sample adds to the tables. */
  datatype Contribution = Contribution(key: string, strategies: seq<string>, counts: map<string, int>, averages: seq<real>)

  /** strategyPayoffSums.get(s) / strategyPayoffCounts.get(s), for the strategies in the given order. */
  function StrategyAverages(strategies: seq<string>, counts: map<string, int>, sums: map<string, real>): (r: seq<real>)
    requires forall s :: s in strategies ==> s in counts && s in sums && counts[s] > 0
    ensures |r| == |strategies|
    ensures forall k :: 0 <= k < |strategies| ==> r[k] * (counts[strategies[k]] as real) == sums[strategies[k]]
  {
    seq(|strategies|, k requires 0 <= k < |strategies| => sums[strategies[k]] / (counts[strategies[k]] as real))
  }

  /** The contribution of a sample whose agents play names and score scores. */
  function ContributionOf(names: seq<string>, scores: seq<real>): Contribution
    requires |names| == |scores|
  {
    TallyCounts(names);
    ScoreSumsKeys(names, scores);
    SortedStrategiesProperties(names);
    var strategies := SortedStrategies(names);
    Contribution(SampleKey(names), strategies, Tally(names), StrategyAverages(strategies, Tally(names), ScoreSums(names, scores)))
  }

  /**
   * A sample's part of the first or second pass: the counts and sums per
   * strategy, the sorted strategy list, the profile key and the average
   * per strategy, for agents playing names and scoring scores.
   */
  method SampleContribution(names: seq<string>, scores: seq<real>) returns (c: Contribution)
    requires |names| == |scores| && |names| > 0
    ensures c == ContributionOf(names, scores)
  {
    var counts, sums := SumByStrategy(names, scores);
    TallyCounts(names);
    ScoreSumsKeys(names, scores);
    var strategies := SortedKeys(counts.Keys);
    SortedStrategiesUnique(names, strategies);
    var key := BuildProfileKey(strategies, counts);
    var averages := AveragesOf(strategies, counts, sums);
    c := Contribution(key, strategies, counts, averages);
  }

  /** The loop that divides each strategy's score sum by its agent count. */
  method AveragesOf(strategies: seq<string>, counts: map<string, int>, sums: map<string, real>) returns (r: seq<real>)
    requires forall s :: s in strategies ==> s in counts && s in sums && counts[s] > 0
    ensures r == StrategyAverages(strategies, counts, sums)
  {
    var a := new real[|strategies|];
    for k := 0 to |strategies|
      invariant forall m :: 0 <= m < k ==> a[m] == sums[strategies[m]] / (counts[strategies[m]] as real)
    {
      a[k] := sums[strategies[k]] / (counts[strategies[k]] as real);
    }
    r := a[..];
  }

  /** A contribution whose strategy list is the one its key spells out. */
  ghost predicate WellShaped(c: Contribution, shape: string -> seq<string>) {
    && |c.strategies| > 0
    && c.strategies == shape(c.key)
    && Distinct(c.strategies)
    && |c.averages| == |c.strategies|
    && (forall s :: s in c.strategies ==> s in c.counts)
  }

  /** Every sample with agents whose names are tokens contributes a well-shaped entry. */
  lemma ContributionWellShaped(names: seq<string>, scores: seq<real>)
    requires |names| == |scores| && |names| > 0
    requires forall i :: 0 <= i < |names| ==> IsToken(names[i])
    ensures WellShaped(ContributionOf(names, scores), StrategiesOfKey)
  {
    TallyCounts(names);
    SortedStrategiesProperties(names);
    var strategies := SortedStrategies(names);
    assert names[0] in strategies;
    forall s | s in strategies ensures s in Tally(names) && IsToken(s) {
      var i :| 0 <= i < |names| && names[i] == s;
    }
    KeyDeterminesStrategies(strategies, Tally(names));
  }

  /** A strategy's average is the sum of its agents' scores over the number of its agents. */
  lemma ContributionAverage(names: seq<string>, scores: seq<real>, k: int)
    requires |names| == |scores|
    requires 0 <= k < |SortedStrategies(names)|
    ensures var c := ContributionOf(names, scores);
      var s := c.strategies[k];
      multiset(names)[s] > 0 && c.averages[k] == ScoreSumFor(names, scores, s) / (multiset(names)[s] as real)
  {
    TallyCounts(names);
    ScoreSumsKeys(names, scores);
    ScoreSumsMeaning(names, scores);
    SortedStrategiesProperties(names);
  }

  /** The profile tables: sample counts, sums, strategy lists and strategy counts, per key. */
  datatype Table = Table(samples: map<string, int>, sums: map<string, seq<real>>,
                         strategies: map<string, seq<string>>, strategyCounts: map<string, map<string, int>>)

  function Zeros(n: nat): (r: seq<real>)
    ensures |r| == n && forall i :: 0 <= i < n ==> r[i] == 0.0
  {
    seq(n, i => 0.0)
  }

  function AddAt(base: seq<real>, xs: seq<real>): (r: seq<real>)
    requires |base| == |xs|
    ensures |r| == |base| && forall i :: 0 <= i < |r| ==> r[i] == base[i] + xs[i]
  {
    seq(|base|, i requires 0 <= i < |base| => base[i] + xs[i])
  }

  /** A strategy name to count / 4 map, for the strategies listed. */
  function QuarterCounts(strategies: seq<string>, counts: map<string, int>): (r: map<string, int>)
    requires forall s :: s in strategies ==> s in counts
    ensures forall s :: s in r <==> s in strategies
    ensures forall s :: s in r ==> r[s] * 4 <= counts[s] < r[s] * 4 + 4
  {
    map s | s in strategies :: counts[s] / 4
  }

  /**
   * The tables agree on their keys, every key has at least one sample, and
   * every key's strategy list and sum array have as many entries as the
   * key names strategies.
   */
  ghost predicate Consistent(t: Table, shape: string -> seq<string>) {
    && t.sums.Keys == t.samples.Keys
    && t.strategies.Keys == t.samples.Keys
    && t.strategyCounts.Keys == t.samples.Keys
    && forall k :: k in t.samples ==> t.samples[k] > 0 && |t.sums[k]| == |shape(k)|
  }

  /** Every key's stored strategy list is the one the key names, and every listed strategy has a count. */
  ghost predicate Labelled(t: Table, shape: string -> seq<string>)
    requires Consistent(t, shape)
  {
    forall k :: k in t.strategies ==>
      t.strategies[k] == shape(k) && forall s :: s in shape(k) ==> s in t.strategyCounts[k]
  }

  /**
   * One sample's update: the key's sample count goes up by one, its sum
   * array (created at zero on first sight) gains the sample's averages at
   * the strategies' sorted positions, and the strategy list and counts are
   * stored under the key.
   */
  function AddSample(t: Table, c: Contribution, ghost shape: string -> seq<string>): (r: Table)
    requires Consistent(t, shape) && WellShaped(c, shape)
    ensures Consistent(r, shape)
  {
    var n := if c.key in t.samples then t.samples[c.key] else 0;
    var base := if c.key in t.sums then t.sums[c.key] else Zeros(|c.strategies|);
    Table(t.samples[c.key := n + 1], t.sums[c.key := AddAt(base, c.averages)],
          t.strategies[c.key := c.strategies], t.strategyCounts[c.key := QuarterCounts(c.strategies, c.counts)])
  }

  ghost predicate AllWellShaped(cs: seq<Contribution>, shape: string -> seq<string>) {
    forall i :: 0 <= i < |cs| ==> WellShaped(cs[i], shape)
  }

  lemma AllWellShapedSplit(cs: seq<Contribution>, shape: string -> seq<string>)
    requires |cs| > 0 && AllWellShaped(cs, shape)
    ensures AllWellShaped(cs[..|cs| - 1], shape) && WellShaped(cs[|cs| - 1], shape)
  {
  }

  /** The tables after all the samples, in the order they are read. */
  function Accumulate(cs: seq<Contribution>, ghost shape: string -> seq<string>): (t: Table)
    requires AllWellShaped(cs, shape)
    ensures Consistent(t, shape)
  {
    if |cs| == 0 then Table(map[], map[], map[], map[])
    else AddSample(Accumulate(cs[..|cs| - 1], shape), cs[|cs| - 1], shape)
  }

  lemma AccumulateStep(cs: seq<Contribution>, shape: string -> seq<string>)
    requires |cs| > 0 && AllWellShaped(cs, shape)
    ensures AllWellShaped(cs[..|cs| - 1], shape) && WellShaped(cs[|cs| - 1], shape)
    ensures Accumulate(cs, shape) == AddSample(Accumulate(cs[..|cs| - 1], shape), cs[|cs| - 1], shape)
  {
  }

  lemma {:induction false} AccumulateLabelled(cs: seq<Contribution>, shape: string -> seq<string>)
    requires AllWellShaped(cs, shape)
    ensures Labelled(Accumulate(cs, shape), shape)
  {
    if |cs| > 0 {
      AccumulateStep(cs, shape);
      AccumulateLabelled(cs[..|cs| - 1], shape);
    }
  }

  /** The tables after one more sample, for loops over the samples. */
  lemma AccumulatePrefix(cs: seq<Contribution>, shape: string -> seq<string>, i: int)
    requires AllWellShaped(cs, shape) && 0 <= i < |cs|
    ensures AllWellShaped(cs[..i], shape) && AllWellShaped(cs[..i + 1], shape) && WellShaped(cs[i], shape)
    ensures Accumulate(cs[..i + 1], shape) == AddSample(Accumulate(cs[..i], shape), cs[i], shape)
  {
    assert cs[..i + 1][..i] == cs[..i];
  }

  /** The reference count: how many samples have key k. */
  function KeyCount(cs: seq<Contribution>, k: string): nat {
    if |cs| == 0 then 0
    else KeyCount(cs[..|cs| - 1], k) + (if cs[|cs| - 1].key == k then 1 else 0)
  }

  lemma {:induction false} KeyCountPositive(cs: seq<Contribution>, i: int)
    requires 0 <= i < |cs|
    ensures KeyCount(cs, cs[i].key) > 0
  {
    if i < |cs| - 1 {
      KeyCountPositive(cs[..|cs| - 1], i);
    }
  }

  /** A key is counted exactly when some sample has it. */
  lemma {:induction false} KeyCountWitness(cs: seq<Contribution>, k: string)
    ensures KeyCount(cs, k) > 0 <==> exists i :: 0 <= i < |cs| && cs[i].key == k
  {
    if |cs| > 0 {
      KeyCountWitness(cs[..|cs| - 1], k);
      if KeyCount(cs[..|cs| - 1], k) > 0 {
        var i :| 0 <= i < |cs| - 1 && cs[..|cs| - 1][i].key == k;
        assert cs[i].key == k;
      }
      if exists i :: 0 <= i < |cs| && cs[i].key == k {
        var i :| 0 <= i < |cs| && cs[i].key == k;
        KeyCountPositive(cs, i);
      }
    }
  }

  /** The reference sum: the i-th averages of the samples with key k. */
  function KeySum(cs: seq<Contribution>, k: string, i: int): real {
    if |cs| == 0 then 0.0
    else
      var c := cs[|cs| - 1];
      KeySum(cs[..|cs| - 1], k, i) + (if c.key == k && 0 <= i < |c.averages| then c.averages[i] else 0.0)
  }

  /** When every sample with key k has v as its i-th average, the i-th sum is v once per such sample. */
  lemma {:induction false} KeySumConstant(cs: seq<Contribution>, k: string, i: int, v: real)
    requires forall j :: 0 <= j < |cs| && cs[j].key == k ==> 0 <= i < |cs[j].averages| && cs[j].averages[i] == v
    ensures KeySum(cs, k, i) == Copies(KeyCount(cs, k), v)
  {
    if |cs| > 0 {
      var init := cs[..|cs| - 1];
      assert forall j :: 0 <= j < |init| ==> init[j] == cs[j];
      KeySumConstant(init, k, i, v);
    }
  }

  /** The tables hold exactly the keys of the samples read, and each key's count is its number of samples. */
  lemma {:induction false} AccumulateCounts(cs: seq<Contribution>, shape: string -> seq<string>, k: string)
    requires AllWellShaped(cs, shape)
    ensures k in Accumulate(cs, shape).samples <==> KeyCount(cs, k) > 0
    ensures k in Accumulate(cs, shape).samples ==> Accumulate(cs, shape).samples[k] == KeyCount(cs, k)
  {
    if |cs| > 0 {
      var init := cs[..|cs| - 1];
      assert AllWellShaped(init, shape);
      AccumulateCounts(init, shape, k);
      var t, c := Accumulate(init, shape), cs[|cs| - 1];
      assert Accumulate(cs, shape) == AddSample(t, c, shape);
      AddSampleCount(t, c, shape, k);
    }
  }

  /** The tables hold a key exactly when some sample has it. */
  lemma AccumulateKeys(cs: seq<Contribution>, shape: string -> seq<string>)
    requires AllWellShaped(cs, shape)
    ensures forall k :: k in Accumulate(cs, shape).samples <==> exists i :: 0 <= i < |cs| && cs[i].key == k
  {
    forall k ensures k in Accumulate(cs, shape).samples <==> exists i :: 0 <= i < |cs| && cs[i].key == k {
      AccumulateCounts(cs, shape, k);
      KeyCountWitness(cs, k);
    }
  }

  /** One sample adds one to its own key's count and leaves the other keys' counts alone. */
  lemma AddSampleCount(t: Table, c: Contribution, shape: string -> seq<string>, k: string)
    requires Consistent(t, shape) && WellShaped(c, shape)
    ensures k in AddSample(t, c, shape).samples <==> k in t.samples || k == c.key
    ensures k in AddSample(t, c, shape).samples ==>
      AddSample(t, c, shape).samples[k] == (if k in t.samples then t.samples[k] else 0) + (if k == c.key then 1 else 0)
  {
  }

  /** Each sum entry is the sum of that strategy's averages over the key's samples. */
  lemma {:induction false} AccumulateSums(cs: seq<Contribution>, shape: string -> seq<string>, k: string, i: int)
    requires AllWellShaped(cs, shape)
    requires k in Accumulate(cs, shape).sums && 0 <= i < |Accumulate(cs, shape).sums[k]|
    ensures Accumulate(cs, shape).sums[k][i] == KeySum(cs, k, i)
  {
    var init := cs[..|cs| - 1];
    AccumulateStep(cs, shape);
    var t, c := Accumulate(init, shape), cs[|cs| - 1];
    var extra := if c.key == k && 0 <= i < |c.averages| then c.averages[i] else 0.0;
    assert KeySum(cs, k, i) == KeySum(init, k, i) + extra by { KeySumStep(cs, k, i); }
    AddSampleSum(t, c, shape, k, i);
    if k in t.sums {
      AccumulateSums(init, shape, k, i);
      assert Accumulate(cs, shape).sums[k][i] == t.sums[k][i] + extra;
    } else {
      UnseenKeySum(init, shape, k, i);
      assert Accumulate(cs, shape).sums[k][i] == 0.0 + extra;
    }
  }

  /** A key without sums has had no samples, so its reference sum is zero. */
  lemma UnseenKeySum(cs: seq<Contribution>, shape: string -> seq<string>, k: string, i: int)
    requires AllWellShaped(cs, shape) && k !in Accumulate(cs, shape).sums
    ensures KeySum(cs, k, i) == 0.0
  {
    AccumulateCounts(cs, shape, k);
    KeySumAbsent(cs, k);
  }

  lemma KeySumStep(cs: seq<Contribution>, k: string, i: int)
    requires |cs| > 0
    ensures var c := cs[|cs| - 1];
      KeySum(cs, k, i) == KeySum(cs[..|cs| - 1], k, i) + (if c.key == k && 0 <= i < |c.averages| then c.averages[i] else 0.0)
  {
  }

  /** One sample adds its average to its own key's slot and leaves the other keys' sums alone. */
  lemma AddSampleSum(t: Table, c: Contribution, shape: string -> seq<string>, k: string, i: int)
    requires Consistent(t, shape) && WellShaped(c, shape)
    requires k in AddSample(t, c, shape).sums && 0 <= i < |AddSample(t, c, shape).sums[k]|
    ensures k in t.sums ==> i < |t.sums[k]|
    ensures k == c.key ==> i < |c.averages|
    ensures AddSample(t, c, shape).sums[k][i]
      == (if k in t.sums then t.sums[k][i] else 0.0) + (if c.key == k && 0 <= i < |c.averages| then c.averages[i] else 0.0)
  {
  }

  lemma {:induction false} KeySumAbsent(cs: seq<Contribution>, k: string)
    ensures KeyCount(cs, k) == 0 ==> forall i :: KeySum(cs, k, i) == 0.0
  {
    if |cs| > 0 {
      KeySumAbsent(cs[..|cs| - 1], k);
    }
  }

  function Mean(sums: seq<real>, n: int): (r: seq<real>)
    requires n > 0
    ensures |r| == |sums| && forall i :: 0 <= i < |r| ==> r[i] * (n as real) == sums[i]
  {
    seq(|sums|, i requires 0 <= i < |sums| => sums[i] / (n as real))
  }

  /** sums[i] / strategyProfileCounts.get(key) for every key and slot. */
  function ProfileAverages(t: Table, ghost shape: string -> seq<string>): (avgs: map<string, seq<real>>)
    requires Consistent(t, shape)
    ensures forall k :: k in avgs <==> k in t.sums
    ensures forall k :: k in avgs ==> |avgs[k]| == |t.sums[k]|
  {
    map k | k in t.sums :: Mean(t.sums[k], t.samples[k])
  }

  /** A profile's average for a strategy is that strategy's mean average over the profile's samples. */
  lemma ProfileAverageIsMean(cs: seq<Contribution>, shape: string -> seq<string>, k: string, i: int)
    requires AllWellShaped(cs, shape)
    requires k in Accumulate(cs, shape).sums && 0 <= i < |Accumulate(cs, shape).sums[k]|
    ensures KeyCount(cs, k) > 0
    ensures ProfileAverages(Accumulate(cs, shape), shape)[k][i] == KeySum(cs, k, i) / (KeyCount(cs, k) as real)
  {
    AccumulateCounts(cs, shape, k);
    AccumulateSums(cs, shape, k, i);
  }

  /** A profile all of whose samples agree on a strategy's average has that average as its profile average. */
  lemma ConstantAverage(cs: seq<Contribution>, shape: string -> seq<string>, k: string, i: int, v: real)
    requires AllWellShaped(cs, shape) && k in Accumulate(cs, shape).samples && 0 <= i < |shape(k)|
    requires forall j :: 0 <= j < |cs| && cs[j].key == k ==> 0 <= i < |cs[j].averages| && cs[j].averages[i] == v
    ensures ProfileAverages(Accumulate(cs, shape), shape)[k][i] == v
  {
    ProfileAverageIsMean(cs, shape, k, i);
    KeySumConstant(cs, k, i, v);
    CopiesMean(KeyCount(cs, k), v);
  }

  /** When every sample agrees with avgs on its profile's averages, those are the profile averages. */
  lemma AgreeingAverages(cs: seq<Contribution>, shape: string -> seq<string>, avgs: map<string, seq<real>>)
    requires AllWellShaped(cs, shape)
    requires avgs.Keys == Accumulate(cs, shape).samples.Keys
    requires forall k :: k in avgs ==> |avgs[k]| == |shape(k)|
    requires forall j, i :: 0 <= j < |cs| && cs[j].key in avgs && 0 <= i < |avgs[cs[j].key]| ==>
      i < |cs[j].averages| && cs[j].averages[i] == avgs[cs[j].key][i]
    ensures ProfileAverages(Accumulate(cs, shape), shape) == avgs
  {
    var t := Accumulate(cs, shape);
    forall k | k in avgs ensures ProfileAverages(t, shape)[k] == avgs[k] {
      forall i | 0 <= i < |avgs[k]| ensures ProfileAverages(t, shape)[k][i] == avgs[k][i] {
        ConstantAverage(cs, shape, k, i, avgs[k][i]);
      }
    }
  }

  /** Per-key arrays as long as the keys' strategy lists. */
  ghost predicate KeyShaped(m: map<string, seq<real>>, shape: string -> seq<string>) {
    forall k :: k in m ==> |m[k]| == |shape(k)|
  }

  /** A contribution whose key has profile averages of the right length. */
  ghost predicate Centred(c: Contribution, avgs: map<string, seq<real>>, shape: string -> seq<string>) {
    WellShaped(c, shape) && c.key in avgs && |avgs[c.key]| == |c.averages|
  }

  function Square(x: real): (r: real)
    ensures r >= 0.0
  {
    x * x
  }

  function SquaredDeviations(xs: seq<real>, centre: seq<real>): (r: seq<real>)
    requires |xs| == |centre|
    ensures |r| == |xs| && forall i :: 0 <= i < |r| ==> r[i] >= 0.0
  {
    seq(|xs|, i requires 0 <= i < |xs| => Square(xs[i] - centre[i]))
  }

  /** The second pass's update: the key's deviation array (created at zero) gains (average - profile average)^2 per slot. */
  function AddDeviation(dev: map<string, seq<real>>, c: Contribution, avgs: map<string, seq<real>>, ghost shape: string -> seq<string>): (r: map<string, seq<real>>)
    requires KeyShaped(dev, shape) && Centred(c, avgs, shape)
    ensures KeyShaped(r, shape)
  {
    var base := if c.key in dev then dev[c.key] else Zeros(|c.strategies|);
    dev[c.key := AddAt(base, SquaredDeviations(c.averages, avgs[c.key]))]
  }

  ghost predicate AllCentred(cs: seq<Contribution>, avgs: map<string, seq<real>>, shape: string -> seq<string>) {
    forall i :: 0 <= i < |cs| ==> Centred(cs[i], avgs, shape)
  }

  /** The deviation sums after the second pass over the samples. */
  function Deviations(cs: seq<Contribution>, avgs: map<string, seq<real>>, ghost shape: string -> seq<string>): (dev: map<string, seq<real>>)
    requires AllCentred(cs, avgs, shape)
    ensures KeyShaped(dev, shape)
  {
    if |cs| == 0 then map[]
    else AddDeviation(Deviations(cs[..|cs| - 1], avgs, shape), cs[|cs| - 1], avgs, shape)
  }

  /** The deviation sums after one more sample, for loops over the samples. */
  lemma DeviationsPrefix(cs: seq<Contribution>, avgs: map<string, seq<real>>, shape: string -> seq<string>, i: int)
    requires AllCentred(cs, avgs, shape) && 0 <= i < |cs|
    ensures AllCentred(cs[..i], avgs, shape) && AllCentred(cs[..i + 1], avgs, shape) && Centred(cs[i], avgs, shape)
    ensures Deviations(cs[..i + 1], avgs, shape) == AddDeviation(Deviations(cs[..i], avgs, shape), cs[i], avgs, shape)
  {
    assert cs[..i + 1][..i] == cs[..i];
  }

  predicate NonNegative(m: map<string, seq<real>>) {
    forall k :: k in m ==> forall i :: 0 <= i < |m[k]| ==> m[k][i] >= 0.0
  }

  /** Every deviation sum is a sum of squares, so it is never negative; its keys are the samples' keys. */
  lemma {:induction false} DeviationsNonNegative(cs: seq<Contribution>, avgs: map<string, seq<real>>, shape: string -> seq<string>)
    requires AllCentred(cs, avgs, shape)
    ensures NonNegative(Deviations(cs, avgs, shape))
    ensures forall k :: k in Deviations(cs, avgs, shape) <==> KeyCount(cs, k) > 0
  {
    if |cs| > 0 {
      assert AllCentred(cs[..|cs| - 1], avgs, shape);
      DeviationsNonNegative(cs[..|cs| - 1], avgs, shape);
    }
  }

  /**
   * A pass's own profile averages centre every one of its samples, and its
   * deviation sums cover exactly its profiles.
   */
  lemma SelfCentred(cs: seq<Contribution>, shape: string -> seq<string>)
    requires AllWellShaped(cs, shape)
    ensures AllCentred(cs, ProfileAverages(Accumulate(cs, shape), shape), shape)
    ensures forall k :: k in Deviations(cs, ProfileAverages(Accumulate(cs, shape), shape), shape) <==> k in Accumulate(cs, shape).samples
  {
    var t := Accumulate(cs, shape);
    var avgs := ProfileAverages(t, shape);
    forall i | 0 <= i < |cs| ensures Centred(cs[i], avgs, shape) {
      KeyCountPositive(cs, i);
      AccumulateCounts(cs, shape, cs[i].key);
    }
    DeviationsNonNegative(cs, avgs, shape);
    forall k ensures k in Deviations(cs, avgs, shape) <==> k in t.samples {
      AccumulateCounts(cs, shape, k);
    }
  }

  /** The reference: the squared deviations from the profile average of slot i, over the samples with key k. */
  ghost function KeyDeviation(cs: seq<Contribution>, avgs: map<string, seq<real>>, shape: string -> seq<string>, k: string, i: int): real
    requires AllCentred(cs, avgs, shape)
  {
    if |cs| == 0 then 0.0
    else
      var c := cs[|cs| - 1];
      assert Centred(c, avgs, shape);
      KeyDeviation(cs[..|cs| - 1], avgs, shape, k, i)
        + (if c.key == k && 0 <= i < |c.averages| then Square(c.averages[i] - avgs[k][i]) else 0.0)
  }

  /** Each deviation sum is the sum of the squared deviations of the key's samples. */
  lemma {:induction false} DeviationsMeaning(cs: seq<Contribution>, avgs: map<string, seq<real>>, shape: string -> seq<string>, k: string, i: int)
    requires AllCentred(cs, avgs, shape)
    requires k in Deviations(cs, avgs, shape) && 0 <= i < |Deviations(cs, avgs, shape)[k]|
    ensures Deviations(cs, avgs, shape)[k][i] == KeyDeviation(cs, avgs, shape, k, i)
  {
    var init := cs[..|cs| - 1];
    assert AllCentred(init, avgs, shape);
    var d, c := Deviations(init, avgs, shape), cs[|cs| - 1];
    assert Centred(c, avgs, shape);
    assert Deviations(cs, avgs, shape) == AddDeviation(d, c, avgs, shape);
    AddDeviationAt(d, c, avgs, shape, k, i);
    KeyDeviationStep(cs, avgs, shape, k, i);
    if k in d {
      DeviationsMeaning(init, avgs, shape, k, i);
    } else {
      DeviationsNonNegative(init, avgs, shape);
      KeyDeviationAbsent(init, avgs, shape, k);
    }
  }

  lemma KeyDeviationStep(cs: seq<Contribution>, avgs: map<string, seq<real>>, shape: string -> seq<string>, k: string, i: int)
    requires |cs| > 0 && AllCentred(cs, avgs, shape)
    ensures var c := cs[|cs| - 1];
      Centred(c, avgs, shape) &&
      KeyDeviation(cs, avgs, shape, k, i) == KeyDeviation(cs[..|cs| - 1], avgs, shape, k, i)
        + (if c.key == k && 0 <= i < |c.averages| then Square(c.averages[i] - avgs[k][i]) else 0.0)
  {
    assert Centred(cs[|cs| - 1], avgs, shape);
  }

  /** One sample adds its squared deviations to its own key's slots and leaves the other keys alone. */
  lemma AddDeviationAt(d: map<string, seq<real>>, c: Contribution, avgs: map<string, seq<real>>, shape: string -> seq<string>, k: string, i: int)
    requires KeyShaped(d, shape) && Centred(c, avgs, shape)
    requires k in AddDeviation(d, c, avgs, shape) && 0 <= i < |AddDeviation(d, c, avgs, shape)[k]|
    ensures k in d ==> i < |d[k]|
    ensures k == c.key ==> i < |c.averages| && i < |avgs[k]|
    ensures AddDeviation(d, c, avgs, shape)[k][i]
      == (if k in d then d[k][i] else 0.0) + (if k == c.key then Square(c.averages[i] - avgs[k][i]) else 0.0)
  {
  }

  lemma {:induction false} KeyDeviationAbsent(cs: seq<Contribution>, avgs: map<string, seq<real>>, shape: string -> seq<string>, k: string)
    requires AllCentred(cs, avgs, shape)
    ensures KeyCount(cs, k) == 0 ==> forall i :: KeyDeviation(cs, avgs, shape, k, i) == 0.0
  {
    if |cs| > 0 {
      assert AllCentred(cs[..|cs| - 1], avgs, shape);
      KeyDeviationAbsent(cs[..|cs| - 1], avgs, shape, k);
    }
  }

  /** Math.sqrt(sum / strategyProfileCounts.get(key)) per key and slot; sqrt is Math.sqrt. */
  function StdDevs(dev: map<string, seq<real>>, samples: map<string, int>, sqrt: real -> real): (r: map<string, seq<real>>)
    requires forall k :: k in dev ==> k in samples && samples[k] > 0
    ensures forall k :: k in r <==> k in dev
    ensures forall k :: k in r ==> |r[k]| == |dev[k]|
  {
    map k | k in dev :: seq(|dev[k]|, i requires 0 <= i < |dev[k]| => sqrt(dev[k][i] / (samples[k] as real)))
  }

  /**
   * The first pass's per-sample update of the tables.  The sample's
   * averages are added in the order its average map yields its strategies,
   * each at the strategy's index in the sorted list.
   */
  method RecordSample(t: Table, c: Contribution, order: seq<string>, ghost shape: string -> seq<string>) returns (r: Table)
    requires Consistent(t, shape) && WellShaped(c, shape)
    requires Distinct(order) && forall s :: s in order <==> s in c.strategies
    ensures r == AddSample(t, c, shape)
  {
    var quarters := QuarterCountsOf(c.strategies, c.counts);
    var strategies := t.strategies[c.key := c.strategies];
    var strategyCounts := t.strategyCounts[c.key := quarters];
    var n := 0;
    if c.key in t.samples {
      n := t.samples[c.key];
    }
    var base := Zeros(|c.strategies|);
    if c.key in t.sums {
      base := t.sums[c.key];
    }
    var row := AddInOrder(base, c.strategies, c.averages, order);
    r := Table(t.samples[c.key := n + 1], t.sums[c.key := row], strategies, strategyCounts);
  }

  /**
   * sums[strategies.indexOf(s)] += average of s, for s in the order the
   * average map yields them: every slot gets its own average exactly once.
   */
  method AddInOrder(base: seq<real>, strategies: seq<string>, averages: seq<real>, order: seq<string>) returns (row: seq<real>)
    requires |base| == |strategies| == |averages| && Distinct(strategies)
    requires Distinct(order) && forall s :: s in order <==> s in strategies
    ensures row == AddAt(base, averages)
  {
    row := base;
    var j := 0;
    while j < |order|
      invariant 0 <= j <= |order|
      invariant |row| == |strategies|
      invariant forall m :: 0 <= m < |row| ==>
        row[m] == base[m] + (if strategies[m] in order[..j] then averages[m] else 0.0)
    {
      var m := IndexOf(strategies, order[j]);
      assert order[..j + 1] == order[..j] + [order[j]];
      assert order[j] !in order[..j];
      row := row[m := row[m] + averages[m]];
      j := j + 1;
    }
    assert order[..j] == order;
  }

  /** The loop that fills profileStrategyCounts with count / 4 per strategy. */
  method QuarterCountsOf(strategies: seq<string>, counts: map<string, int>) returns (r: map<string, int>)
    requires forall s :: s in strategies ==> s in counts
    ensures r == QuarterCounts(strategies, counts)
  {
    r := map[];
    for i := 0 to |strategies|
      invariant forall s :: s in r <==> s in strategies[..i]
      invariant forall s :: s in r ==> r[s] == counts[s] / 4
    {
      assert strategies[..i + 1] == strategies[..i] + [strategies[i]];
      r := r[strategies[i] := counts[strategies[i]] / 4];
    }
    assert strategies[..|strategies|] == strategies;
  }

  /** The loop over the profile keys that divides each sum array by the key's sample count. */
  method ComputeAverages(t: Table, ghost shape: string -> seq<string>) returns (avgs: map<string, seq<real>>)
    requires Consistent(t, shape)
    ensures avgs == ProfileAverages(t, shape)
  {
    avgs := map[];
    var keys := t.sums.Keys;
    while keys != {}
      invariant keys <= t.sums.Keys
      invariant avgs.Keys == t.sums.Keys - keys
      invariant forall k :: k in avgs ==> avgs[k] == Mean(t.sums[k], t.samples[k])
      decreases keys
    {
      var k :| k in keys;
      var sums := t.sums[k];
      var n := t.samples[k];
      var a := new real[|sums|];
      for i := 0 to a.Length
        invariant forall m :: 0 <= m < i ==> a[m] == sums[m] / (n as real)
      {
        a[i] := sums[i] / (n as real);
      }
      assert a[..] == Mean(sums, n);
      avgs := avgs[k := a[..]];
      keys := keys - {k};
    }
  }

  /** The second pass's per-sample update: slot i gains (average of strategy i - profile average i)^2. */
  method RecordDeviation(dev: map<string, seq<real>>, c: Contribution, avgs: map<string, seq<real>>, ghost shape: string -> seq<string>)
    returns (r: map<string, seq<real>>)
    requires KeyShaped(dev, shape) && Centred(c, avgs, shape)
    ensures r == AddDeviation(dev, c, avgs, shape)
  {
    r := dev;
    if c.key !in r {
      r := r[c.key := Zeros(|c.strategies|)];
    }
    var sums := r[c.key];
    var totals := avgs[c.key];
    ghost var base := sums;
    for i := 0 to |c.strategies|
      invariant |sums| == |c.strategies|
      invariant forall m :: 0 <= m < |sums| ==> sums[m] == base[m] + (if m < i then Square(c.averages[m] - totals[m]) else 0.0)
    {
      sums := sums[i := sums[i] + Square(c.averages[i] - totals[i])];
    }
    assert sums == AddAt(base, SquaredDeviations(c.averages, totals));
    r := r[c.key := sums];
  }

  /** The loop over the deviation keys that takes sqrt(sum / sample count) per slot. */
  method ComputeStdDevs(dev: map<string, seq<real>>, samples: map<string, int>, sqrt: real -> real) returns (r: map<string, seq<real>>)
    requires forall k :: k in dev ==> k in samples && samples[k] > 0
    ensures r == StdDevs(dev, samples, sqrt)
  {
    r := map[];
    var keys := dev.Keys;
    while keys != {}
      invariant keys <= dev.Keys
      invariant r.Keys == dev.Keys - keys
      invariant forall k :: k in r ==> r[k] == StdDevs(dev, samples, sqrt)[k]
      decreases keys
    {
      var k :| k in keys;
      var sums := dev[k];
      var a := new real[|sums|];
      for i := 0 to a.Length
        invariant forall m :: 0 <= m < i ==> a[m] == sqrt(sums[m] / (samples[k] as real))
      {
        a[i] := sqrt(sums[i] / (samples[k] as real));
      }
      assert a[..] == StdDevs(dev, samples, sqrt)[k];
      r := r[k := a[..]];
      keys := keys - {k};
    }
  }

  /** The averages and deviations cover every profile and have one entry per strategy. */
  ghost predicate Reportable(t: Table, shape: string -> seq<string>, avgs: map<string, seq<real>>, stds: map<string, seq<real>>) {
    && Consistent(t, shape) && Labelled(t, shape)
    && forall k :: k in t.samples ==>
         k in avgs && k in stds && |avgs[k]| == |t.strategies[k]| && |stds[k]| == |t.strategies[k]|
  }

  /** A profile's block of the report; show is Double.toString. */
  function ProfileBlock(t: Table, ghost shape: string -> seq<string>, avgs: map<string, seq<real>>, stds: map<string, seq<real>>,
                        show: real -> string, k: string): (b: Block)
    requires Reportable(t, shape, avgs, stds) && k in t.samples
    ensures b.key == k && b.samples == t.samples[k] && |b.rows| == |t.strategies[k]|
    ensures forall i :: 0 <= i < |b.rows| ==> b.rows[i].name == t.strategies[k][i] && b.rows[i].payoff == show(avgs[k][i])
  {
    var ss := t.strategies[k];
    Block(k, t.samples[k], seq(|ss|, i requires 0 <= i < |ss| =>
      Row(ss[i], t.strategyCounts[k][ss[i]], show(avgs[k][i]), show(stds[k][i]))))
  }

  /** The profiles' blocks in the order the key map yields them. */
  function ReportBlocks(t: Table, ghost shape: string -> seq<string>, avgs: map<string, seq<real>>, stds: map<string, seq<real>>,
                        show: real -> string, order: seq<string>): (bs: seq<Block>)
    requires Reportable(t, shape, avgs, stds)
    requires forall k :: k in order ==> k in t.samples
    ensures |bs| == |order|
  {
    seq(|order|, j requires 0 <= j < |order| => ProfileBlock(t, shape, avgs, stds, show, order[j]))
  }

  /** The blocks read a profile's averages only for the profiles they print. */
  lemma ReportBlocksAgree(t: Table, shape: string -> seq<string>, avgs: map<string, seq<real>>, other: map<string, seq<real>>,
                          stds: map<string, seq<real>>, show: real -> string, order: seq<string>)
    requires Reportable(t, shape, avgs, stds) && Reportable(t, shape, other, stds)
    requires forall k :: k in t.samples ==> avgs[k] == other[k]
    requires forall k :: k in order ==> k in t.samples
    ensures ReportBlocks(t, shape, avgs, stds, show, order) == ReportBlocks(t, shape, other, stds, show, order)
  {
    forall j | 0 <= j < |order|
      ensures ProfileBlock(t, shape, avgs, stds, show, order[j]) == ProfileBlock(t, shape, other, stds, show, order[j])
    {
    }
  }

  /** A list without repeats that holds exactly the members of a set has as many entries as the set. */
  lemma {:induction false} DistinctCardinality(order: seq<string>, keys: set<string>)
    requires Distinct(order) && forall k :: k in order <==> k in keys
    ensures |order| == |keys|
  {
    if |order| > 0 {
      var last := order[|order| - 1];
      var init := order[..|order| - 1];
      assert last !in init;
      forall k ensures k in init <==> k in keys - {last} {
        if k in init {
          var i :| 0 <= i < |init| && init[i] == k;
          assert order[i] == k;
        }
        if k in keys - {last} {
          assert k in order;
          var i :| 0 <= i < |order| && order[i] == k;
          assert i < |order| - 1;
          assert init[i] == k;
        }
      }
      DistinctCardinality(init, keys - {last});
    }
  }

  /**
   * The StringBuilder loop that writes the report: the number of profiles,
   * then every profile's key, sample count, strategy count and four lines
   * per strategy.
   */
  method EmitReport(t: Table, ghost shape: string -> seq<string>, avgs: map<string, seq<real>>, stds: map<string, seq<real>>,
                    show: real -> string, order: seq<string>) returns (lines: seq<string>)
    requires Reportable(t, shape, avgs, stds)
    requires Distinct(order) && forall k :: k in order <==> k in t.samples
    ensures lines == RenderReport(ReportBlocks(t, shape, avgs, stds, show, order))
  {
    ghost var bs := ReportBlocks(t, shape, avgs, stds, show, order);
    DistinctCardinality(order, t.samples.Keys);
    var header := IntToString(|t.samples|);
    var body := [];
    for j := 0 to |order|
      invariant body == BlocksLines(bs[..j])
    {
      var block := EmitProfile(t, shape, avgs, stds, show, order[j]);
      assert bs[j] == ProfileBlock(t, shape, avgs, stds, show, order[j]);
      BlocksLinesPrefix(bs, j);
      body := body + block;
    }
    assert bs[..|order|] == bs;
    lines := [header] + body;
  }

  /** One profile's lines of the report. */
  method EmitProfile(t: Table, ghost shape: string -> seq<string>, avgs: map<string, seq<real>>, stds: map<string, seq<real>>,
                     show: real -> string, k: string) returns (lines: seq<string>)
    requires Reportable(t, shape, avgs, stds) && k in t.samples
    ensures lines == BlockLines(ProfileBlock(t, shape, avgs, stds, show, k))
  {
    ghost var b := ProfileBlock(t, shape, avgs, stds, show, k);
    var ss := t.strategies[k];
    lines := [k, IntToString(t.samples[k]), IntToString(|ss|)];
    for i := 0 to |ss|
      invariant lines == [k, IntToString(t.samples[k]), IntToString(|ss|)] + RowLines(b.rows[..i])
    {
      assert b.rows[..i + 1][..i] == b.rows[..i];
      var s := ss[i];
      lines := lines + [s, IntToString(t.strategyCounts[k][s]), show(avgs[k][i]), show(stds[k][i])];
    }
    assert b.rows[..|ss|] == b.rows;
  }

  /** What the positional reader gets back: exactly the profiles in keys, each with one payoff text per average. */
  ghost predicate ReadsBack(r: Option<map<string, seq<string>>>, keys: set<string>, avgs: map<string, seq<real>>, show: real -> string) {
    && r.Some?
    && (forall k :: k in r.value <==> k in keys)
    && forall k :: k in keys ==>
         k in avgs && |r.value[k]| == |avgs[k]| && forall i :: 0 <= i < |avgs[k]| ==> r.value[k][i] == show(avgs[k][i])
  }

  /** The report reads back as the average texts of every profile, whatever the order of the profiles. */
  lemma ReportReadsBack(t: Table, shape: string -> seq<string>, avgs: map<string, seq<real>>, stds: map<string, seq<real>>,
                        show: real -> string, order: seq<string>)
    requires Reportable(t, shape, avgs, stds)
    requires Distinct(order) && forall k :: k in order <==> k in t.samples
    requires |order| <= INT_MAX && forall k :: k in order ==> |t.strategies[k]| <= INT_MAX
    ensures ReadsBack(ParsedReport(RenderReport(ReportBlocks(t, shape, avgs, stds, show, order))), t.samples.Keys, avgs, show)
  {
    var bs := ReportBlocks(t, shape, avgs, stds, show, order);
    ReportBlocksShape(t, shape, avgs, stds, show, order);
    ReportReadsBlocks(bs);
    var m := ParsedReport(RenderReport(bs)).value;
    ReadBackKeys(bs, order, m, t.samples.Keys);
    forall k | k in t.samples
      ensures k in avgs && |m[k]| == |avgs[k]| && forall i :: 0 <= i < |avgs[k]| ==> m[k][i] == show(avgs[k][i])
    {
      var j :| 0 <= j < |order| && order[j] == k;
      assert bs[j].key == k;
      assert m[k] == Payoffs(bs[j].rows);
    }
  }

  /** The keys read back are the profiles listed. */
  lemma ReadBackKeys(bs: seq<Block>, order: seq<string>, m: map<string, seq<string>>, keys: set<string>)
    requires |bs| == |order| && forall j :: 0 <= j < |bs| ==> bs[j].key == order[j]
    requires forall k :: k in order <==> k in keys
    requires forall j :: 0 <= j < |bs| ==> bs[j].key in m
    requires forall k :: k in m ==> exists j :: 0 <= j < |bs| && bs[j].key == k
    ensures forall k :: k in m <==> k in keys
  {
    forall k ensures k in m <==> k in keys {
      if k in m {
        var j :| 0 <= j < |bs| && bs[j].key == k;
        assert order[j] == k;
      }
      if k in keys {
        var j :| 0 <= j < |order| && order[j] == k;
        assert bs[j].key == k;
      }
    }
  }

  lemma ReportBlocksShape(t: Table, shape: string -> seq<string>, avgs: map<string, seq<real>>, stds: map<string, seq<real>>,
                          show: real -> string, order: seq<string>)
    requires Reportable(t, shape, avgs, stds)
    requires Distinct(order) && forall k :: k in order <==> k in t.samples
    requires |order| <= INT_MAX && forall k :: k in order ==> |t.strategies[k]| <= INT_MAX
    ensures var bs := ReportBlocks(t, shape, avgs, stds, show, order);
      && Printable(bs) && DistinctKeys(bs)
      && forall j :: 0 <= j < |bs| ==>
           bs[j].key == order[j] && |Payoffs(bs[j].rows)| == |t.strategies[order[j]]|
           && forall i :: 0 <= i < |bs[j].rows| ==> Payoffs(bs[j].rows)[i] == show(avgs[order[j]][i])
  {
    var bs := ReportBlocks(t, shape, avgs, stds, show, order);
    forall j | 0 <= j < |bs| ensures bs[j] == ProfileBlock(t, shape, avgs, stds, show, order[j]) {
    }
  }

  /**
   * With Double.valueOf reading back what Double.toString writes, the
   * averages reader gets back from the report exactly the averages it was
   * written from.
   */
  lemma ReportFeedsReaders(t: Table, shape: string -> seq<string>, avgs: map<string, seq<real>>, stds: map<string, seq<real>>,
                           show: real -> string, order: seq<string>, toReal: string -> Option<real>)
    requires Reportable(t, shape, avgs, stds) && avgs.Keys == t.samples.Keys
    requires Distinct(order) && forall k :: k in order <==> k in t.samples
    requires |order| <= INT_MAX && forall k :: k in order ==> |t.strategies[k]| <= INT_MAX
    requires ReadsAsDoubles(show, toReal)
    ensures ParsedAverages(RenderReport(ReportBlocks(t, shape, avgs, stds, show, order)), toReal) == Some(avgs)
  {
    var bs := ReportBlocks(t, shape, avgs, stds, show, order);
    ReportCellsParse(t, shape, avgs, stds, show, order, toReal);
    RenderedAverages(bs, toReal);
    ReportReadsBack(t, shape, avgs, stds, show, order);
    ConvertReadBack(ParsedReport(RenderReport(bs)).value, avgs, show, toReal);
  }

  lemma ReportCellsParse(t: Table, shape: string -> seq<string>, avgs: map<string, seq<real>>, stds: map<string, seq<real>>,
                         show: real -> string, order: seq<string>, toReal: string -> Option<real>)
    requires Reportable(t, shape, avgs, stds)
    requires forall k :: k in order ==> k in t.samples
    requires ReadsAsDoubles(show, toReal)
    ensures var bs := ReportBlocks(t, shape, avgs, stds, show, order);
      forall i, j :: 0 <= i < |bs| && 0 <= j < |bs[i].rows| ==> toReal(bs[i].rows[j].payoff).Some?
  {
    var bs := ReportBlocks(t, shape, avgs, stds, show, order);
    forall i, j | 0 <= i < |bs| && 0 <= j < |bs[i].rows| ensures toReal(bs[i].rows[j].payoff).Some? {
      assert bs[i] == ProfileBlock(t, shape, avgs, stds, show, order[i]);
      ReadBack(show, toReal, avgs[order[i]][j]);
    }
  }

  lemma ConvertReadBack(m: map<string, seq<string>>, avgs: map<string, seq<real>>, show: real -> string, toReal: string -> Option<real>)
    requires ReadsBack(Some(m), avgs.Keys, avgs, show)
    requires ReadsAsDoubles(show, toReal)
    ensures Convert(m, toReal) == avgs
  {
    var r := Convert(m, toReal);
    forall k | k in r ensures k in avgs && r[k] == avgs[k] {
      forall i | 0 <= i < |avgs[k]| ensures r[k][i] == avgs[k][i] {
        assert m[k][i] == show(avgs[k][i]);
        ReadBack(show, toReal, avgs[k][i]);
      }
    }
  }
}
