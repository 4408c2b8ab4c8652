/**
 * CalculateAveragePayoffPerStratPerProf: a first pass over the samples
 * computes every agent's average payoff over the REPS repetitions from the
 * transaction prices and accumulates the per-profile tables; a second pass
 * takes every agent's reported score and sums the squared deviations of the
 * per-strategy averages from the profile averages; the report gives per
 * profile and strategy the average and the standard deviation.
 */
module AveragePayoff {
  import opened JavaStrings
  import opened Sorting
  import opened Market
  import opened Profiles
  import opened Report
  import opened Aggregation
  import opened Readers
  import opened Wrappers

  /** The first pass's score of every agent: its payoff averaged over the repetitions. */
  function ComputedScores(s: Sample): (r: seq<real>)
    requires WellFormed(s)
    ensures |r| == |s.agents|
  {
    var book := Bucketed(s.repetitions);
    seq(|s.agents|, i requires 0 <= i < |s.agents| =>
      WellFormedPricesFit(s, i);
      AverageOverReps(book, s.agents[i]))
  }

  /** The second pass's score of every agent: the one the simulator reported. */
  function ReportedScores(s: Sample): (r: seq<real>)
    ensures |r| == |s.agents| && forall i :: 0 <= i < |s.agents| ==> r[i] == s.agents[i].score
  {
    seq(|s.agents|, i requires 0 <= i < |s.agents| => s.agents[i].score)
  }

  function FirstPass(samples: seq<Sample>): (cs: seq<Contribution>)
    requires AllWellFormed(samples)
    ensures |cs| == |samples|
  {
    seq(|samples|, i requires 0 <= i < |samples| =>
      ContributionOf(Names(samples[i].agents), ComputedScores(samples[i])))
  }

  function SecondPass(samples: seq<Sample>): (cs: seq<Contribution>)
    ensures |cs| == |samples|
  {
    seq(|samples|, i requires 0 <= i < |samples| =>
      ContributionOf(Names(samples[i].agents), ReportedScores(samples[i])))
  }

  /** The profile tables after the first pass. */
  function Tables(samples: seq<Sample>): (t: Table)
    requires AllWellFormed(samples)
    ensures Consistent(t, StrategiesOfKey)
  {
    PassesFit(samples);
    Accumulate(FirstPass(samples), StrategiesOfKey)
  }

  /** The profile keys both passes see, in the order the samples are read. */
  lemma PassesFit(samples: seq<Sample>)
    requires AllWellFormed(samples)
    ensures AllWellShaped(FirstPass(samples), StrategiesOfKey)
    ensures AllWellShaped(SecondPass(samples), StrategiesOfKey)
    ensures forall i :: 0 <= i < |samples| ==> FirstPass(samples)[i].key == SecondPass(samples)[i].key
    ensures forall i :: 0 <= i < |samples| ==>
      FirstPass(samples)[i].strategies == SecondPass(samples)[i].strategies
  {
    forall i | 0 <= i < |samples|
      ensures WellShaped(FirstPass(samples)[i], StrategiesOfKey)
      ensures WellShaped(SecondPass(samples)[i], StrategiesOfKey)
    {
      var names := Names(samples[i].agents);
      ContributionWellShaped(names, ComputedScores(samples[i]));
      ContributionWellShaped(names, ReportedScores(samples[i]));
    }
  }

  /** Two passes over the same samples count the same keys. */
  lemma {:induction false} SameKeysSameCounts(a: seq<Contribution>, b: seq<Contribution>, k: string)
    requires |a| == |b| && forall i :: 0 <= i < |a| ==> a[i].key == b[i].key
    ensures KeyCount(a, k) == KeyCount(b, k)
  {
    if |a| > 0 {
      SameKeysSameCounts(a[..|a| - 1], b[..|b| - 1], k);
    }
  }

  /** The averages of the first pass centre every sample of the second. */
  lemma SecondPassCentred(samples: seq<Sample>)
    requires AllWellFormed(samples)
    ensures AllCentred(SecondPass(samples), ProfileAverages(Tables(samples), StrategiesOfKey), StrategiesOfKey)
  {
    PassesFit(samples);
    var first, second := FirstPass(samples), SecondPass(samples);
    var t := Tables(samples);
    forall i | 0 <= i < |second| ensures Centred(second[i], ProfileAverages(t, StrategiesOfKey), StrategiesOfKey) {
      KeyCountPositive(first, i);
      AccumulateCounts(first, StrategiesOfKey, first[i].key);
    }
  }

  /** The deviation sums of the second pass. */
  function DeviationSums(samples: seq<Sample>): map<string, seq<real>>
    requires AllWellFormed(samples)
  {
    SecondPassCentred(samples);
    Deviations(SecondPass(samples), ProfileAverages(Tables(samples), StrategiesOfKey), StrategiesOfKey)
  }

  /** The two passes have the same profiles, so every profile has a deviation and a standard deviation. */
  lemma DeviationKeys(samples: seq<Sample>)
    requires AllWellFormed(samples)
    ensures forall k :: k in DeviationSums(samples) <==> k in Tables(samples).samples
  {
    PassesFit(samples);
    SecondPassCentred(samples);
    var avgs := ProfileAverages(Tables(samples), StrategiesOfKey);
    DeviationsNonNegative(SecondPass(samples), avgs, StrategiesOfKey);
    forall k ensures k in DeviationSums(samples) <==> k in Tables(samples).samples {
      SameKeysSameCounts(FirstPass(samples), SecondPass(samples), k);
      AccumulateCounts(FirstPass(samples), StrategiesOfKey, k);
    }
  }

  function StdDevTable(samples: seq<Sample>, sqrt: real -> real): map<string, seq<real>>
    requires AllWellFormed(samples)
  {
    DeviationKeys(samples);
    StdDevs(DeviationSums(samples), Tables(samples).samples, sqrt)
  }

  lemma ReportReady(samples: seq<Sample>, sqrt: real -> real)
    requires AllWellFormed(samples)
    ensures Reportable(Tables(samples), StrategiesOfKey, ProfileAverages(Tables(samples), StrategiesOfKey), StdDevTable(samples, sqrt))
  {
    PassesFit(samples);
    AccumulateLabelled(FirstPass(samples), StrategiesOfKey);
    DeviationKeys(samples);
  }

  /** The report of the program: show is Double.toString, sqrt is Math.sqrt, order the key map's order. */
  function AveragePayoffReport(samples: seq<Sample>, order: seq<string>, show: real -> string, sqrt: real -> real): seq<string>
    requires AllWellFormed(samples)
    requires forall k :: k in order ==> k in Tables(samples).samples
  {
    ReportReady(samples, sqrt);
    var t := Tables(samples);
    RenderReport(ReportBlocks(t, StrategiesOfKey, ProfileAverages(t, StrategiesOfKey), StdDevTable(samples, sqrt), show, order))
  }

  /**
   * The report reads back, with the positional reader the other programs
   * use, as every profile's average payoff text per strategy, for any
   * order of the profiles.
   */
  lemma AveragePayoffRoundTrip(samples: seq<Sample>, order: seq<string>, show: real -> string, sqrt: real -> real)
    requires AllWellFormed(samples)
    requires Distinct(order) && forall k :: k in order <==> k in Tables(samples).samples
    requires |order| <= INT_MAX && forall k :: k in order ==> |Tables(samples).strategies[k]| <= INT_MAX
    ensures var t := Tables(samples);
      ReadsBack(ParsedReport(AveragePayoffReport(samples, order, show, sqrt)), t.samples.Keys, ProfileAverages(t, StrategiesOfKey), show)
  {
    ReportReady(samples, sqrt);
    var t := Tables(samples);
    ReportReadsBack(t, StrategiesOfKey, ProfileAverages(t, StrategiesOfKey), StdDevTable(samples, sqrt), show, order);
  }

  /**
   * What the other programs read from the report: with Double.valueOf
   * reading back what Double.toString writes, exactly the profile averages
   * of the first pass.
   */
  lemma AveragePayoffFeedsReaders(samples: seq<Sample>, order: seq<string>, show: real -> string, sqrt: real -> real,
                                  toReal: string -> Option<real>)
    requires AllWellFormed(samples)
    requires Distinct(order) && forall k :: k in order <==> k in Tables(samples).samples
    requires |order| <= INT_MAX && forall k :: k in order ==> |Tables(samples).strategies[k]| <= INT_MAX
    requires ReadsAsDoubles(show, toReal)
    ensures ParsedAverages(AveragePayoffReport(samples, order, show, sqrt), toReal) == Some(ProfileAverages(Tables(samples), StrategiesOfKey))
  {
    ReportReady(samples, sqrt);
    AverageKeys(samples);
    var t := Tables(samples);
    ReportFeedsReaders(t, StrategiesOfKey, ProfileAverages(t, StrategiesOfKey), StdDevTable(samples, sqrt), show, order, toReal);
  }

  /** Every profile of the samples has an average, and nothing else does. */
  lemma AverageKeys(samples: seq<Sample>)
    requires AllWellFormed(samples)
    ensures ProfileAverages(Tables(samples), StrategiesOfKey).Keys == Tables(samples).samples.Keys
  {
    PassesFit(samples);
    AccumulateLabelled(FirstPass(samples), StrategiesOfKey);
  }

  /** The first pass over one sample's agents: bucket the prices and average every agent's payoff. */
  method ScoreAgents(s: Sample) returns (scores: seq<real>)
    requires WellFormed(s)
    ensures scores == ComputedScores(s)
  {
    var book := BucketTransactions(s.repetitions);
    scores := [];
    for i := 0 to |s.agents|
      invariant scores == ComputedScores(s)[..i]
    {
      WellFormedPricesFit(s, i);
      var avg := AgentPayoff(book, s.agents[i]);
      scores := scores + [avg];
    }
  }

  /**
   * CalculateAveragePayoffPerStratPerProf.main on the samples, in the
   * order the directory lists them; order is the order in which the
   * profile-count map yields its keys.
   */
  method AveragePayoffs(samples: seq<Sample>, order: seq<string>, show: real -> string, sqrt: real -> real)
    returns (lines: seq<string>)
    requires AllWellFormed(samples)
    requires Distinct(order) && forall k :: k in order <==> k in Tables(samples).samples
    ensures lines == AveragePayoffReport(samples, order, show, sqrt)
  {
    var t := AccumulateSamples(samples);
    var avgs := ComputeAverages(t, StrategiesOfKey);
    var dev := DeviationPass(samples, avgs);
    DeviationKeys(samples);
    var stds := ComputeStdDevs(dev, t.samples, sqrt);
    ReportReady(samples, sqrt);
    lines := EmitReport(t, StrategiesOfKey, avgs, stds, show, order);
  }

  /** The first pass: every sample's computed payoffs go into the profile tables. */
  method AccumulateSamples(samples: seq<Sample>) returns (t: Table)
    requires AllWellFormed(samples)
    ensures t == Tables(samples)
  {
    PassesFit(samples);
    var first := FirstPass(samples);
    t := Table(map[], map[], map[], map[]);
    assert first[..0] == [];
    for i := 0 to |samples|
      invariant AllWellShaped(first[..i], StrategiesOfKey)
      invariant t == Accumulate(first[..i], StrategiesOfKey)
    {
      var scores := ScoreAgents(samples[i]);
      var c := SampleContribution(Names(samples[i].agents), scores);
      AccumulatePrefix(first, StrategiesOfKey, i);
      t := RecordSample(t, c, c.strategies, StrategiesOfKey);
    }
    assert first[..|samples|] == first;
  }

  /** The second pass: every sample's reported scores, against the first pass's averages. */
  method DeviationPass(samples: seq<Sample>, avgs: map<string, seq<real>>) returns (dev: map<string, seq<real>>)
    requires AllWellFormed(samples)
    requires avgs == ProfileAverages(Tables(samples), StrategiesOfKey)
    ensures dev == DeviationSums(samples)
  {
    SecondPassCentred(samples);
    var second := SecondPass(samples);
    dev := map[];
    assert second[..0] == [];
    for i := 0 to |samples|
      invariant AllCentred(second[..i], avgs, StrategiesOfKey)
      invariant dev == Deviations(second[..i], avgs, StrategiesOfKey)
    {
      var c := SampleContribution(Names(samples[i].agents), ReportedScores(samples[i]));
      DeviationsPrefix(second, avgs, StrategiesOfKey, i);
      dev := RecordDeviation(dev, c, avgs, StrategiesOfKey);
    }
    assert second[..|samples|] == second;
  }
}
