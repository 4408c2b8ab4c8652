/**
 * CalculateRedVarAvgPayoffPerStratPerProf: reads the average normalised
 * unit values, the average-payoff report and the control-variate
 * coefficients; scores every agent of every sample as its profile's parsed
 * average for its strategy minus the coefficient-weighted deviations of its
 * normalised unit values from their averages; aggregates these reduced
 * scores per profile exactly like the average-payoff program; takes a
 * second pass for the standard deviations around the reduced averages; and
 * writes the game JSON (reduced averages) and a plain report (the parsed
 * input averages beside the reduced standard deviations).
 */
module RedVar {
  import opened Wrappers
  import opened JavaStrings
  import opened Sorting
  import opened Market
  import opened Profiles
  import opened Report
  import opened Aggregation
  import opened Readers
  import opened GameJson

  /** What the three input files give: avgNormalizedUnitValue, strategyProfileAvgs and conVarCoeffs. */
  datatype Inputs = Inputs(unitAverages: seq<real>, averages: map<string, seq<real>>, coefficients: seq<real>)

  predicate Sized(inputs: Inputs) {
    |inputs.unitAverages| == UNITS && |inputs.coefficients| == UNITS
  }

  /** The three files read in turn; any exception while reading one of them ends the program. */
  function ReadInputs(unitLines: seq<string>, reportLines: seq<string>, coeffLines: seq<string>, toReal: string -> Option<real>)
    : (r: Option<Inputs>)
    ensures r.Some? <==> UnitValues(unitLines, toReal).Some? && ParsedAverages(reportLines, toReal).Some?
                         && Coefficients(coeffLines, toReal).Some?
    ensures r.Some? ==> Sized(r.value) && r.value.averages == ParsedAverages(reportLines, toReal).value
  {
    var u, a, c := UnitValues(unitLines, toReal), ParsedAverages(reportLines, toReal), Coefficients(coeffLines, toReal);
    if u.Some? && a.Some? && c.Some? then Some(Inputs(u.value, a.value, c.value)) else None
  }

  // ---------------------------------------------------------------------
  // The reduced score of one agent

  /** The sum over the first n units of c[u] * (normalised value of unit u - its average). */
  function Correction(values: seq<int>, inputs: Inputs, n: nat): real
    requires Sized(inputs) && |values| >= UNITS && n <= UNITS
  {
    if n == 0 then 0.0
    else
      Correction(values, inputs, n - 1)
        + inputs.coefficients[n - 1] * (NormalizedValue(IsBuyer(values), values[n - 1]) as real - inputs.unitAverages[n - 1])
  }

  /** With all coefficients zero nothing is subtracted. */
  lemma {:induction false} NoCoefficientsNoCorrection(values: seq<int>, inputs: Inputs, n: nat)
    requires Sized(inputs) && |values| >= UNITS && n <= UNITS
    requires forall u :: 0 <= u < UNITS ==> inputs.coefficients[u] == 0.0
    ensures Correction(values, inputs, n) == 0.0
  {
    if n > 0 {
      NoCoefficientsNoCorrection(values, inputs, n - 1);
    }
  }

  /** An agent whose normalised values are exactly the averages keeps its profile average, whatever the coefficients. */
  lemma {:induction false} AverageValuesNoCorrection(values: seq<int>, inputs: Inputs, n: nat)
    requires Sized(inputs) && |values| >= UNITS && n <= UNITS
    requires forall u :: 0 <= u < UNITS ==> NormalizedValue(IsBuyer(values), values[u]) as real == inputs.unitAverages[u]
    ensures Correction(values, inputs, n) == 0.0
  {
    if n > 0 {
      AverageValuesNoCorrection(values, inputs, n - 1);
    }
  }

  /**
   * The reduced-variance score of an agent of the profile key whose sorted
   * strategies are strategies: strategyProfileAvgs.get(key) at the index
   * of the agent's strategy, minus the correction.  A key missing from the
   * averages file, or an index past its averages, is an exception.
   */
  function ReducedScore(a: Agent, key: string, strategies: seq<string>, inputs: Inputs): (r: Option<real>)
    requires Sized(inputs) && |a.values| >= UNITS
    ensures r.Some? <==> key in inputs.averages && 0 <= IndexOf(strategies, a.strategy) < |inputs.averages[key]|
    ensures r.Some? ==> r.value + Correction(a.values, inputs, UNITS) == inputs.averages[key][IndexOf(strategies, a.strategy)]
  {
    var j := IndexOf(strategies, a.strategy);
    if key in inputs.averages && 0 <= j < |inputs.averages[key]| then
      Some(inputs.averages[key][j] - Correction(a.values, inputs, UNITS))
    else None
  }

  /** With all coefficients zero an agent's reduced score is its profile's parsed average for its strategy. */
  lemma ReducedScoreUncorrected(a: Agent, key: string, strategies: seq<string>, inputs: Inputs)
    requires Sized(inputs) && |a.values| >= UNITS
    requires forall u :: 0 <= u < UNITS ==> inputs.coefficients[u] == 0.0
    requires ReducedScore(a, key, strategies, inputs).Some?
    ensures ReducedScore(a, key, strategies, inputs).value == inputs.averages[key][IndexOf(strategies, a.strategy)]
  {
    NoCoefficientsNoCorrection(a.values, inputs, UNITS);
  }

  /** The agents' reduced scores in agent order, or None when one of them throws. */
  function AgentScores(agents: seq<Agent>, key: string, strategies: seq<string>, inputs: Inputs): (r: Option<seq<real>>)
    requires Sized(inputs) && forall i :: 0 <= i < |agents| ==> |agents[i].values| >= UNITS
    ensures r.Some? <==> forall i :: 0 <= i < |agents| ==> ReducedScore(agents[i], key, strategies, inputs).Some?
    ensures r.Some? ==> |r.value| == |agents|
    ensures r.Some? ==> forall i :: 0 <= i < |agents| ==> Some(r.value[i]) == ReducedScore(agents[i], key, strategies, inputs)
  {
    if forall i :: 0 <= i < |agents| ==> ReducedScore(agents[i], key, strategies, inputs).Some? then
      Some(seq(|agents|, i requires 0 <= i < |agents| => ReducedScore(agents[i], key, strategies, inputs).value))
    else None
  }

  /** The reduced scores of a sample's agents against its own profile. */
  function ReducedScores(s: Sample, inputs: Inputs): (r: Option<seq<real>>)
    requires WellFormed(s) && Sized(inputs)
    ensures r.Some? ==> |r.value| == |s.agents|
  {
    var names := Names(s.agents);
    AgentScores(s.agents, SampleKey(names), SortedStrategies(names), inputs)
  }

  /**
   * A sample's agents all get a score exactly when its key is in the
   * averages file with at least one average per strategy of the sample.
   */
  lemma ReducedScoresDefined(s: Sample, inputs: Inputs)
    requires WellFormed(s) && Sized(inputs)
    ensures var names := Names(s.agents);
      ReducedScores(s, inputs).Some? <==>
        SampleKey(names) in inputs.averages && |SortedStrategies(names)| <= |inputs.averages[SampleKey(names)]|
  {
    var names := Names(s.agents);
    if SampleKey(names) in inputs.averages && |SortedStrategies(names)| <= |inputs.averages[SampleKey(names)]| {
      CoveredSampleReduces(s, inputs);
    }
    if ReducedScores(s, inputs).Some? {
      ReducedSampleCovered(s, inputs);
    }
  }

  lemma CoveredSampleReduces(s: Sample, inputs: Inputs)
    requires WellFormed(s) && Sized(inputs)
    requires var names := Names(s.agents);
      SampleKey(names) in inputs.averages && |SortedStrategies(names)| <= |inputs.averages[SampleKey(names)]|
    ensures ReducedScores(s, inputs).Some?
  {
    var names := Names(s.agents);
    var key, strategies := SampleKey(names), SortedStrategies(names);
    forall i | 0 <= i < |s.agents| ensures ReducedScore(s.agents[i], key, strategies, inputs).Some? {
      IndexOfAgentStrategy(names, i);
    }
  }

  lemma ReducedSampleCovered(s: Sample, inputs: Inputs)
    requires WellFormed(s) && Sized(inputs) && ReducedScores(s, inputs).Some?
    ensures var names := Names(s.agents);
      SampleKey(names) in inputs.averages && |SortedStrategies(names)| <= |inputs.averages[SampleKey(names)]|
  {
    var names := Names(s.agents);
    var key, strategies := SampleKey(names), SortedStrategies(names);
    SortedStrategiesProperties(names);
    assert ReducedScore(s.agents[0], key, strategies, inputs).Some?;
    var last := strategies[|strategies| - 1];
    assert last in names;
    var i :| 0 <= i < |names| && names[i] == last;
    IndexOfDistinct(strategies, |strategies| - 1);
    assert ReducedScore(s.agents[i], key, strategies, inputs).Some?;
  }

  // ---------------------------------------------------------------------
  // The samples' contributions

  /** The first n samples all get their reduced scores. */
  predicate Reduces(samples: seq<Sample>, inputs: Inputs, n: int)
    requires AllWellFormed(samples) && Sized(inputs) && n <= |samples|
  {
    forall j :: 0 <= j < n ==> ReducedScores(samples[j], inputs).Some?
  }

  /** What a sample adds to the tables; a sample that throws adds nothing the program gets to use. */
  function SampleContributionOf(s: Sample, inputs: Inputs): (c: Contribution)
    requires WellFormed(s) && Sized(inputs)
    ensures ReducedScores(s, inputs).Some? ==> WellShaped(c, StrategiesOfKey) && c.key == SampleKey(Names(s.agents))
  {
    var scores := ReducedScores(s, inputs);
    if scores.Some? then
      ContributionWellShaped(Names(s.agents), scores.value);
      ContributionOf(Names(s.agents), scores.value)
    else Contribution("", [], map[], [])
  }

  /** Every sample's contribution, in the order the samples are read. */
  function ReducedContributions(samples: seq<Sample>, inputs: Inputs): (cs: seq<Contribution>)
    requires AllWellFormed(samples) && Sized(inputs)
    ensures |cs| == |samples|
  {
    seq(|samples|, j requires 0 <= j < |samples| => SampleContributionOf(samples[j], inputs))
  }

  /** The contributions of the samples read so far, while none has thrown, are well shaped. */
  lemma PrefixShaped(samples: seq<Sample>, inputs: Inputs, n: nat)
    requires AllWellFormed(samples) && Sized(inputs) && n <= |samples| && Reduces(samples, inputs, n)
    ensures AllWellShaped(ReducedContributions(samples, inputs)[..n], StrategiesOfKey)
    ensures forall j :: 0 <= j < n ==> ReducedContributions(samples, inputs)[j].key == SampleKey(Names(samples[j].agents))
  {
    var cs := ReducedContributions(samples, inputs);
    forall j | 0 <= j < n ensures WellShaped(cs[..n][j], StrategiesOfKey) && cs[j].key == SampleKey(Names(samples[j].agents)) {
      assert cs[..n][j] == cs[j] == SampleContributionOf(samples[j], inputs);
    }
  }

  /** The first pass's contributions, or None when a sample throws. */
  function Contributions(samples: seq<Sample>, inputs: Inputs): (r: Option<seq<Contribution>>)
    requires AllWellFormed(samples) && Sized(inputs)
    ensures r.Some? <==> Reduces(samples, inputs, |samples|)
    ensures r.Some? ==> AllWellShaped(r.value, StrategiesOfKey) && r.value == ReducedContributions(samples, inputs)
  {
    if Reduces(samples, inputs, |samples|) then
      PrefixShaped(samples, inputs, |samples|);
      assert ReducedContributions(samples, inputs)[..|samples|] == ReducedContributions(samples, inputs);
      Some(ReducedContributions(samples, inputs))
    else None
  }

  /** The profile keys of the samples: the keys of the program's profile maps. */
  function SampleKeys(samples: seq<Sample>): set<string> {
    set i | 0 <= i < |samples| :: SampleKey(Names(samples[i].agents))
  }

  /** The tables hold a profile exactly when some sample has it. */
  lemma TableKeys(samples: seq<Sample>, inputs: Inputs)
    requires AllWellFormed(samples) && Sized(inputs) && Reduces(samples, inputs, |samples|)
    ensures Accumulate(Contributions(samples, inputs).value, StrategiesOfKey).samples.Keys == SampleKeys(samples)
  {
    PrefixShaped(samples, inputs, |samples|);
    KeysOfSamples(Contributions(samples, inputs).value, samples);
  }

  lemma KeysOfSamples(cs: seq<Contribution>, samples: seq<Sample>)
    requires AllWellShaped(cs, StrategiesOfKey) && |cs| == |samples|
    requires forall j :: 0 <= j < |cs| ==> cs[j].key == SampleKey(Names(samples[j].agents))
    ensures Accumulate(cs, StrategiesOfKey).samples.Keys == SampleKeys(samples)
  {
    AccumulateKeys(cs, StrategiesOfKey);
  }

  /**
   * Every profile of the tables is in the averages file, with at least as
   * many averages as strategies, and at least one strategy.
   */
  lemma TablesInAverages(samples: seq<Sample>, inputs: Inputs)
    requires AllWellFormed(samples) && Sized(inputs) && Reduces(samples, inputs, |samples|)
    ensures var t := Accumulate(Contributions(samples, inputs).value, StrategiesOfKey);
      forall k :: k in t.samples ==> k in inputs.averages && 0 < |StrategiesOfKey(k)| <= |inputs.averages[k]|
  {
    var cs := Contributions(samples, inputs).value;
    AccumulateKeys(cs, StrategiesOfKey);
    PrefixShaped(samples, inputs, |samples|);
    forall k | k in Accumulate(cs, StrategiesOfKey).samples
      ensures k in inputs.averages && 0 < |StrategiesOfKey(k)| <= |inputs.averages[k]|
    {
      var i :| 0 <= i < |cs| && cs[i].key == k;
      SampleInAverages(samples[i], inputs);
    }
  }

  /** A sample whose agents all get a score has its profile in the averages file, with enough averages. */
  lemma SampleInAverages(s: Sample, inputs: Inputs)
    requires WellFormed(s) && Sized(inputs) && ReducedScores(s, inputs).Some?
    ensures var key := SampleKey(Names(s.agents));
      key in inputs.averages && 0 < |StrategiesOfKey(key)| <= |inputs.averages[key]|
  {
    var names := Names(s.agents);
    ReducedScoresDefined(s, inputs);
    ContributionWellShaped(names, ReducedScores(s, inputs).value);
    SortedStrategiesProperties(names);
    assert names[0] in SortedStrategies(names);
  }

  // ---------------------------------------------------------------------
  // The reduced tables and the outputs

  /** The reduced re-aggregation: the tables, the reduced averages and the reduced standard deviations. */
  datatype Reduced = Reduced(table: Table, averages: map<string, seq<real>>, stds: map<string, seq<real>>)

  /** The second pass's squared deviations from the reduced profile averages. */
  function ReducedDeviations(cs: seq<Contribution>): (dev: map<string, seq<real>>)
    requires AllWellShaped(cs, StrategiesOfKey)
    ensures forall k :: k in dev <==> k in Accumulate(cs, StrategiesOfKey).samples
  {
    SelfCentred(cs, StrategiesOfKey);
    Deviations(cs, ProfileAverages(Accumulate(cs, StrategiesOfKey), StrategiesOfKey), StrategiesOfKey)
  }

  function Reduce(cs: seq<Contribution>, sqrt: real -> real): (r: Reduced)
    requires AllWellShaped(cs, StrategiesOfKey)
    ensures r.table == Accumulate(cs, StrategiesOfKey)
    ensures Reportable(r.table, StrategiesOfKey, r.averages, r.stds)
    ensures forall k :: k in r.stds <==> k in r.table.samples
  {
    var t := Accumulate(cs, StrategiesOfKey);
    AccumulateLabelled(cs, StrategiesOfKey);
    Reduced(t, ProfileAverages(t, StrategiesOfKey), StdDevs(ReducedDeviations(cs), t.samples, sqrt))
  }

  /**
   * The console loop over the parsed averages reads a profile's standard
   * deviations once for every average it has: a profile with averages but
   * no deviations, or with more averages than deviations, is an exception,
   * while a profile with no averages is never looked up.
   */
  predicate ConsoleFits(averages: map<string, seq<real>>, stds: map<string, seq<real>>) {
    forall k :: k in averages && |averages[k]| > 0 ==> k in stds && |averages[k]| <= |stds[k]|
  }

  /** A profile with no averages passes the console loop whatever the deviations, even none at all. */
  lemma EmptyProfilePasses(averages: map<string, seq<real>>, stds: map<string, seq<real>>, k: string)
    requires ConsoleFits(averages, stds)
    ensures ConsoleFits(averages[k := []], stds)
  {
  }

  /** The parsed averages of the given profiles only. */
  function Restrict(averages: map<string, seq<real>>, keys: set<string>): (r: map<string, seq<real>>)
    ensures r.Keys == averages.Keys * keys
    ensures forall k :: k in r ==> r[k] == averages[k]
  {
    map k | k in averages && k in keys :: averages[k]
  }

  /**
   * Once the console loop is through, every profile of the samples has one
   * parsed average per strategy, so the plain report can print them, and
   * every other profile of the averages file has no averages at all.
   */
  lemma InputsReportable(samples: seq<Sample>, inputs: Inputs, sqrt: real -> real)
    requires AllWellFormed(samples) && Sized(inputs) && Reduces(samples, inputs, |samples|)
    requires ConsoleFits(inputs.averages, Reduce(Contributions(samples, inputs).value, sqrt).stds)
    ensures var red := Reduce(Contributions(samples, inputs).value, sqrt);
      && Reportable(red.table, StrategiesOfKey, inputs.averages, red.stds)
      && red.table.samples.Keys <= inputs.averages.Keys
      && forall k :: k in inputs.averages && k !in red.table.samples ==> |inputs.averages[k]| == 0
  {
    TablesInAverages(samples, inputs);
    AveragesReportable(Reduce(Contributions(samples, inputs).value, sqrt), inputs.averages);
  }

  lemma AveragesReportable(red: Reduced, averages: map<string, seq<real>>)
    requires Reportable(red.table, StrategiesOfKey, red.averages, red.stds)
    requires forall k :: k in red.stds <==> k in red.table.samples
    requires forall k :: k in red.table.samples ==> k in averages && 0 < |StrategiesOfKey(k)| <= |averages[k]|
    requires ConsoleFits(averages, red.stds)
    ensures Reportable(red.table, StrategiesOfKey, averages, red.stds)
    ensures red.table.samples.Keys <= averages.Keys
    ensures forall k :: k in averages && k !in red.table.samples ==> |averages[k]| == 0
  {
  }

  /** One JSON profile object per report block, with the same rows. */
  function EntriesOf(bs: seq<Block>): (r: seq<ProfileEntry>)
    ensures |r| == |bs|
  {
    seq(|bs|, j requires 0 <= j < |bs| =>
      ProfileEntry(bs[j].samples, seq(|bs[j].rows|, i requires 0 <= i < |bs[j].rows| =>
        var row := bs[j].rows[i]; StrategyEntry(row.name, row.count, row.payoff, row.std))))
  }

  const Header: string :=
    "{\"id\":\"329509325323\"," + "\"name\":\"CDA\"," + "\"simulator_fullname\":\"CDA-2.11\","
    + "\"parameter_hash\":{\"foo\":\"bar\"},"
    + "\"roles\":[{\"name\":\"ALL\",\"count\":4,\"strategies\":[\"AA\",\"GD\",\"GDX\",\"KAPLAN\",\"RB\",\"ZI\",\"ZIBTQ\",\"ZIP\"]}],"

  /** The game JSON file and the plain report file. */
  datatype Output = Output(json: string, plain: seq<string>)

  /**
   * The two files: the JSON with the reduced averages and standard
   * deviations, the plain report with the parsed input averages beside the
   * reduced standard deviations, both with the profiles in order.
   */
  function Outputs(red: Reduced, inputs: Inputs, show: real -> string, order: seq<string>): Output
    requires Reportable(red.table, StrategiesOfKey, red.averages, red.stds)
    requires Reportable(red.table, StrategiesOfKey, inputs.averages, red.stds)
    requires forall k :: k in order ==> k in red.table.samples
  {
    Output(GameText(Header, EntriesOf(ReportBlocks(red.table, StrategiesOfKey, red.averages, red.stds, show, order))),
           RenderReport(ReportBlocks(red.table, StrategiesOfKey, inputs.averages, red.stds, show, order)))
  }

  /**
   * The program on the samples in directory order and the three files'
   * lines; order is the order in which the profile-count map yields its
   * keys, show is Double.toString, sqrt is Math.sqrt and toReal is
   * Double.valueOf.  None where the program throws.
   */
  function RedVarOutput(samples: seq<Sample>, unitLines: seq<string>, reportLines: seq<string>, coeffLines: seq<string>,
                        toReal: string -> Option<real>, show: real -> string, sqrt: real -> real, order: seq<string>)
    : Option<Output>
    requires AllWellFormed(samples)
    requires forall k :: k in order ==> k in SampleKeys(samples)
  {
    var inputs := ReadInputs(unitLines, reportLines, coeffLines, toReal);
    if inputs.None? then None else ReducedOutput(samples, inputs.value, show, sqrt, order)
  }

  /** The program once the three files are read: None where a sample or the console loop throws. */
  function ReducedOutput(samples: seq<Sample>, inputs: Inputs, show: real -> string, sqrt: real -> real, order: seq<string>)
    : Option<Output>
    requires AllWellFormed(samples) && Sized(inputs)
    requires forall k :: k in order ==> k in SampleKeys(samples)
  {
    if !Reduces(samples, inputs, |samples|) then None
    else
      var red := Reduce(Contributions(samples, inputs).value, sqrt);
      if !ConsoleFits(inputs.averages, red.stds) then None
      else
        InputsReportable(samples, inputs, sqrt);
        TableKeys(samples, inputs);
        Some(Outputs(red, inputs, show, order))
  }

  // ---------------------------------------------------------------------
  // What the outputs promise

  /** All control-variate coefficients are zero. */
  predicate NoCoefficients(inputs: Inputs)
    requires Sized(inputs)
  {
    forall u :: 0 <= u < UNITS ==> inputs.coefficients[u] == 0.0
  }

  /** With zero coefficients a sample's per-strategy averages are its profile's parsed averages. */
  lemma UncorrectedContribution(s: Sample, inputs: Inputs, m: int)
    requires WellFormed(s) && Sized(inputs) && NoCoefficients(inputs) && ReducedScores(s, inputs).Some?
    requires 0 <= m < |SortedStrategies(Names(s.agents))|
    ensures var c := SampleContributionOf(s, inputs);
      c.key in inputs.averages && m < |c.averages| && m < |inputs.averages[c.key]|
      && c.averages[m] == inputs.averages[c.key][m]
  {
    var names := Names(s.agents);
    var key, strategies := SampleKey(names), SortedStrategies(names);
    var scores := ReducedScores(s, inputs).value;
    ReducedScoresDefined(s, inputs);
    ContributionAverage(names, scores, m);
    SortedStrategiesProperties(names);
    IndexOfDistinct(strategies, m);
    var v := inputs.averages[key][m];
    forall i | 0 <= i < |names| && names[i] == strategies[m] ensures scores[i] == v {
      ReducedScoreUncorrected(s.agents[i], key, strategies, inputs);
    }
    ScoreSumForConstant(names, scores, strategies[m], v);
    CopiesMean(multiset(names)[strategies[m]], v);
  }

  /**
   * With zero coefficients the reduction changes nothing: the reduced
   * profile averages the JSON reports are the parsed averages of the
   * samples' profiles, which the plain report repeats.
   */
  lemma UncorrectedAverages(samples: seq<Sample>, inputs: Inputs, sqrt: real -> real)
    requires AllWellFormed(samples) && Sized(inputs) && NoCoefficients(inputs) && Reduces(samples, inputs, |samples|)
    requires ConsoleFits(inputs.averages, Reduce(Contributions(samples, inputs).value, sqrt).stds)
    ensures Reduce(Contributions(samples, inputs).value, sqrt).averages == Restrict(inputs.averages, SampleKeys(samples))
  {
    var cs := Contributions(samples, inputs).value;
    var red := Reduce(cs, sqrt);
    InputsReportable(samples, inputs, sqrt);
    TableKeys(samples, inputs);
    RestrictReportable(red, inputs.averages, SampleKeys(samples));
    UncorrectedContributions(samples, inputs, sqrt);
    AveragesOfReduced(red, cs, Restrict(inputs.averages, SampleKeys(samples)));
  }

  /** Averages that the report can print still can once cut down to the report's profiles. */
  lemma RestrictReportable(red: Reduced, averages: map<string, seq<real>>, keys: set<string>)
    requires Reportable(red.table, StrategiesOfKey, averages, red.stds) && red.table.samples.Keys == keys
    ensures var sampled := Restrict(averages, keys);
      Reportable(red.table, StrategiesOfKey, sampled, red.stds) && sampled.Keys == keys
  {
    var sampled := Restrict(averages, keys);
    forall k | k in red.table.samples ensures k in sampled && sampled[k] == averages[k] {
      assert k in averages && k in keys;
    }
  }

  /** A sample whose profile has no more parsed averages than strategies starts with those averages. */
  lemma UncorrectedSample(s: Sample, inputs: Inputs)
    requires WellFormed(s) && Sized(inputs) && NoCoefficients(inputs) && ReducedScores(s, inputs).Some?
    requires var key := SampleKey(Names(s.agents));
      key in inputs.averages && |inputs.averages[key]| <= |SortedStrategies(Names(s.agents))|
    ensures var c := SampleContributionOf(s, inputs); c.key in inputs.averages && inputs.averages[c.key] <= c.averages
  {
    var c := SampleContributionOf(s, inputs);
    var parsed := inputs.averages[SampleKey(Names(s.agents))];
    forall i | 0 <= i < |parsed| ensures i < |c.averages| && c.averages[i] == parsed[i] {
      UncorrectedContribution(s, inputs, i);
    }
  }

  /** Every contribution whose profile has parsed averages carries those averages. */
  predicate AgreesWith(cs: seq<Contribution>, averages: map<string, seq<real>>) {
    forall j :: 0 <= j < |cs| && cs[j].key in averages ==> averages[cs[j].key] <= cs[j].averages
  }

  lemma AveragesOfReduced(red: Reduced, cs: seq<Contribution>, averages: map<string, seq<real>>)
    requires AllWellShaped(cs, StrategiesOfKey) && red.table == Accumulate(cs, StrategiesOfKey)
    requires Reportable(red.table, StrategiesOfKey, averages, red.stds) && averages.Keys == red.table.samples.Keys
    requires AgreesWith(cs, averages)
    ensures ProfileAverages(red.table, StrategiesOfKey) == averages
  {
    forall j, i | 0 <= j < |cs| && cs[j].key in averages && 0 <= i < |averages[cs[j].key]|
      ensures i < |cs[j].averages| && cs[j].averages[i] == averages[cs[j].key][i]
    {
      assert averages[cs[j].key] <= cs[j].averages;
    }
    AgreeingAverages(cs, StrategiesOfKey, averages);
  }

  lemma UncorrectedContributions(samples: seq<Sample>, inputs: Inputs, sqrt: real -> real)
    requires AllWellFormed(samples) && Sized(inputs) && NoCoefficients(inputs) && Reduces(samples, inputs, |samples|)
    requires ConsoleFits(inputs.averages, Reduce(Contributions(samples, inputs).value, sqrt).stds)
    ensures AgreesWith(Contributions(samples, inputs).value, inputs.averages)
  {
    var cs := Contributions(samples, inputs).value;
    InputsReportable(samples, inputs, sqrt);
    forall j | 0 <= j < |cs| && cs[j].key in inputs.averages ensures inputs.averages[cs[j].key] <= cs[j].averages {
      assert cs[j] == SampleContributionOf(samples[j], inputs);
      var parsed := inputs.averages[cs[j].key];
      if |parsed| > 0 {
        UncorrectedContribution(samples[j], inputs, |parsed| - 1);
      }
      UncorrectedSample(samples[j], inputs);
    }
  }

  /**
   * The plain report, read back the way the other programs read reports,
   * gives exactly the parsed averages of the samples' profiles.
   */
  lemma PlainFeedsReaders(samples: seq<Sample>, inputs: Inputs, show: real -> string, sqrt: real -> real,
                          order: seq<string>, toReal: string -> Option<real>)
    requires AllWellFormed(samples) && Sized(inputs)
    requires Distinct(order) && forall k :: k in order <==> k in SampleKeys(samples)
    requires |order| <= INT_MAX && forall k :: k in order ==> |StrategiesOfKey(k)| <= INT_MAX
    requires ReadsAsDoubles(show, toReal)
    requires ReducedOutput(samples, inputs, show, sqrt, order).Some?
    ensures ParsedAverages(ReducedOutput(samples, inputs, show, sqrt, order).value.plain, toReal)
              == Some(Restrict(inputs.averages, SampleKeys(samples)))
  {
    var red := Reduce(Contributions(samples, inputs).value, sqrt);
    InputsReportable(samples, inputs, sqrt);
    TableKeys(samples, inputs);
    SampledReportReadsBack(red, inputs.averages, SampleKeys(samples), show, order, toReal);
  }

  /** A report printed from any averages reads back as the averages of its own profiles. */
  lemma SampledReportReadsBack(red: Reduced, averages: map<string, seq<real>>, keys: set<string>, show: real -> string,
                               order: seq<string>, toReal: string -> Option<real>)
    requires Reportable(red.table, StrategiesOfKey, averages, red.stds) && red.table.samples.Keys == keys
    requires Distinct(order) && forall k :: k in order <==> k in keys
    requires |order| <= INT_MAX && forall k :: k in order ==> |StrategiesOfKey(k)| <= INT_MAX
    requires ReadsAsDoubles(show, toReal)
    ensures ParsedAverages(RenderReport(ReportBlocks(red.table, StrategiesOfKey, averages, red.stds, show, order)), toReal)
              == Some(Restrict(averages, keys))
  {
    var sampled := Restrict(averages, keys);
    RestrictReportable(red, averages, keys);
    ReportBlocksAgree(red.table, StrategiesOfKey, averages, sampled, red.stds, show, order);
    ReportFeedsReaders(red.table, StrategiesOfKey, sampled, red.stds, show, order, toReal);
  }

  /**
   * The whole program: whenever it finishes, its plain report reads back
   * as the average-payoff report it was given, less the profiles no sample
   * has, and each of those had no averages.
   */
  lemma RedVarPlainReadsAsInput(samples: seq<Sample>, unitLines: seq<string>, reportLines: seq<string>, coeffLines: seq<string>,
                                toReal: string -> Option<real>, show: real -> string, sqrt: real -> real, order: seq<string>)
    requires AllWellFormed(samples)
    requires Distinct(order) && forall k :: k in order <==> k in SampleKeys(samples)
    requires |order| <= INT_MAX && forall k :: k in order ==> |StrategiesOfKey(k)| <= INT_MAX
    requires ReadsAsDoubles(show, toReal)
    ensures var r := RedVarOutput(samples, unitLines, reportLines, coeffLines, toReal, show, sqrt, order);
      var parsed := ParsedAverages(reportLines, toReal);
      r.Some? ==> && parsed.Some?
                  && ParsedAverages(r.value.plain, toReal) == Some(Restrict(parsed.value, SampleKeys(samples)))
                  && forall k :: k in parsed.value && k !in SampleKeys(samples) ==> |parsed.value[k]| == 0
  {
    var inputs := ReadInputs(unitLines, reportLines, coeffLines, toReal);
    if inputs.Some? && ReducedOutput(samples, inputs.value, show, sqrt, order).Some? {
      PlainFeedsReaders(samples, inputs.value, show, sqrt, order, toReal);
      InputsReportable(samples, inputs.value, sqrt);
      TableKeys(samples, inputs.value);
    }
  }

  // ---------------------------------------------------------------------
  // The program

  /** The unit loop of one agent: start from the profile average and subtract every unit's weighted deviation. */
  method ReduceScore(a: Agent, key: string, strategies: seq<string>, inputs: Inputs) returns (r: Option<real>)
    requires Sized(inputs) && |a.values| >= UNITS
    ensures r == ReducedScore(a, key, strategies, inputs)
  {
    var isBuyer := a.values[0] > a.values[|a.values| - 1];
    if key !in inputs.averages {
      return None;
    }
    var j := IndexOf(strategies, a.strategy);
    if !(0 <= j < |inputs.averages[key]|) {
      return None;
    }
    var score := inputs.averages[key][j];
    for u := 0 to UNITS
      invariant score == inputs.averages[key][j] - Correction(a.values, inputs, u)
    {
      var normalized := if isBuyer then a.values[u] - V_MIN else V_MAX - a.values[u];
      score := score - inputs.coefficients[u] * (normalized as real - inputs.unitAverages[u]);
    }
    return Some(score);
  }

  /** The agent loop of one sample, whose key and sorted strategies are already known. */
  method ReduceSample(agents: seq<Agent>, key: string, strategies: seq<string>, inputs: Inputs) returns (r: Option<seq<real>>)
    requires Sized(inputs) && forall i :: 0 <= i < |agents| ==> |agents[i].values| >= UNITS
    ensures r == AgentScores(agents, key, strategies, inputs)
  {
    var scores := [];
    for i := 0 to |agents|
      invariant |scores| == i
      invariant forall m :: 0 <= m < i ==> Some(scores[m]) == ReducedScore(agents[m], key, strategies, inputs)
    {
      var score := ReduceScore(agents[i], key, strategies, inputs);
      if score.None? {
        return None;
      }
      scores := scores + [score.value];
    }
    assert scores == AgentScores(agents, key, strategies, inputs).value;
    return Some(scores);
  }

  /**
   * The strategy sums and counts of a sample's reduced scores and their
   * averages, in the order of the sample's sorted strategies.
   */
  method ReducedContribution(names: seq<string>, key: string, strategies: seq<string>, scores: seq<real>)
    returns (c: Contribution)
    requires |names| == |scores|
    requires key == SampleKey(names) && strategies == SortedStrategies(names)
    ensures c == ContributionOf(names, scores)
  {
    var counts, sums := SumByStrategy(names, scores);
    TallyCounts(names);
    ScoreSumsKeys(names, scores);
    SortedStrategiesProperties(names);
    var averages := AveragesOf(strategies, counts, sums);
    c := Contribution(key, strategies, counts, averages);
  }

  /** One sample of either pass: its profile, its agents' reduced scores and what they add up to. */
  method ReduceContribution(s: Sample, inputs: Inputs) returns (c: Option<Contribution>)
    requires WellFormed(s) && Sized(inputs)
    ensures c.Some? <==> ReducedScores(s, inputs).Some?
    ensures c.Some? ==> c.value == ContributionOf(Names(s.agents), ReducedScores(s, inputs).value)
  {
    var names := Names(s.agents);
    var strategies, key := IdentifyProfile(names);
    var scores := ReduceSample(s.agents, key, strategies, inputs);
    if scores.None? {
      return None;
    }
    var contribution := ReducedContribution(names, key, strategies, scores.value);
    return Some(contribution);
  }

  /** The first pass: every sample's reduced scores go into the profile tables. */
  method ReducedPass(samples: seq<Sample>, inputs: Inputs) returns (t: Option<Table>)
    requires AllWellFormed(samples) && Sized(inputs)
    ensures t.Some? <==> Reduces(samples, inputs, |samples|)
    ensures t.Some? ==> t.value == Accumulate(Contributions(samples, inputs).value, StrategiesOfKey)
  {
    ghost var cs := ReducedContributions(samples, inputs);
    var table := Table(map[], map[], map[], map[]);
    assert cs[..0] == [];
    for i := 0 to |samples|
      invariant Reduces(samples, inputs, i)
      invariant AllWellShaped(cs[..i], StrategiesOfKey)
      invariant table == Accumulate(cs[..i], StrategiesOfKey)
    {
      var c := ReduceContribution(samples[i], inputs);
      if c.None? {
        return None;
      }
      assert c.value == cs[i];
      ReducesStep(samples, inputs, i);
      PrefixShaped(samples, inputs, i + 1);
      AccumulateUpTo(cs, i);
      table := RecordSample(table, c.value, c.value.strategies, StrategiesOfKey);
    }
    assert cs[..|samples|] == cs;
    return Some(table);
  }

  lemma ReducesStep(samples: seq<Sample>, inputs: Inputs, i: int)
    requires AllWellFormed(samples) && Sized(inputs) && 0 <= i < |samples|
    requires Reduces(samples, inputs, i) && ReducedScores(samples[i], inputs).Some?
    ensures Reduces(samples, inputs, i + 1)
  {
  }

  lemma AccumulateUpTo(cs: seq<Contribution>, i: int)
    requires 0 <= i < |cs| && AllWellShaped(cs[..i + 1], StrategiesOfKey)
    ensures AllWellShaped(cs[..i], StrategiesOfKey) && WellShaped(cs[i], StrategiesOfKey)
    ensures Accumulate(cs[..i + 1], StrategiesOfKey) == AddSample(Accumulate(cs[..i], StrategiesOfKey), cs[i], StrategiesOfKey)
  {
    AccumulateStep(cs[..i + 1], StrategiesOfKey);
    assert cs[..i + 1][..i] == cs[..i];
  }

  /** The second pass: the same reduced scores, against the reduced profile averages. */
  method ReducedDeviationPass(samples: seq<Sample>, inputs: Inputs, ghost cs: seq<Contribution>, avgs: map<string, seq<real>>)
    returns (dev: map<string, seq<real>>)
    requires AllWellFormed(samples) && Sized(inputs) && Reduces(samples, inputs, |samples|)
    requires cs == ReducedContributions(samples, inputs) && AllWellShaped(cs, StrategiesOfKey)
    requires avgs == ProfileAverages(Accumulate(cs, StrategiesOfKey), StrategiesOfKey)
    ensures dev == ReducedDeviations(cs)
  {
    SelfCentred(cs, StrategiesOfKey);
    dev := map[];
    assert cs[..0] == [];
    for i := 0 to |samples|
      invariant AllCentred(cs[..i], avgs, StrategiesOfKey)
      invariant dev == Deviations(cs[..i], avgs, StrategiesOfKey)
    {
      assert ReducedScores(samples[i], inputs).Some?;
      DeviationsPrefix(cs, avgs, StrategiesOfKey, i);
      dev := DeviateSample(samples[i], inputs, cs[i], dev, avgs);
    }
    assert cs[..|samples|] == cs;
  }

  /** One sample of the second pass: its reduced contribution's squared deviations are added in. */
  method DeviateSample(s: Sample, inputs: Inputs, ghost c: Contribution, dev: map<string, seq<real>>, avgs: map<string, seq<real>>)
    returns (r: map<string, seq<real>>)
    requires WellFormed(s) && Sized(inputs) && ReducedScores(s, inputs).Some? && c == SampleContributionOf(s, inputs)
    requires KeyShaped(dev, StrategiesOfKey) && Centred(c, avgs, StrategiesOfKey)
    ensures r == AddDeviation(dev, c, avgs, StrategiesOfKey)
  {
    var contribution := ReduceContribution(s, inputs);
    r := RecordDeviation(dev, contribution.value, avgs, StrategiesOfKey);
  }

  /**
   * The console loop over the parsed averages: it throws unless every
   * profile with averages has at least as many deviations as averages.
   */
  method CheckConsole(averages: map<string, seq<real>>, stds: map<string, seq<real>>) returns (fits: bool)
    ensures fits <==> ConsoleFits(averages, stds)
  {
    var keys := averages.Keys;
    while keys != {}
      invariant keys <= averages.Keys
      invariant forall k :: k in averages && k !in keys && |averages[k]| > 0 ==> k in stds && |averages[k]| <= |stds[k]|
      decreases keys
    {
      var k :| k in keys;
      if |averages[k]| > 0 && (k !in stds || |averages[k]| > |stds[k]|) {
        return false;
      }
      keys := keys - {k};
    }
    return true;
  }

  /**
   * CalculateRedVarAvgPayoffPerStratPerProf.main on the samples in the
   * order the directory lists them and the lines of the three input files.
   */
  method ReducedVariancePayoffs(samples: seq<Sample>, unitLines: seq<string>, reportLines: seq<string>, coeffLines: seq<string>,
                                toReal: string -> Option<real>, show: real -> string, sqrt: real -> real, order: seq<string>)
    returns (r: Option<Output>)
    requires AllWellFormed(samples)
    requires Distinct(order) && forall k :: k in order <==> k in SampleKeys(samples)
    ensures r == RedVarOutput(samples, unitLines, reportLines, coeffLines, toReal, show, sqrt, order)
  {
    var unitAverages := ReadUnitValues(unitLines, toReal);
    if unitAverages.None? {
      return None;
    }
    var averages := ReadAverages(reportLines, toReal);
    if averages.None? {
      return None;
    }
    var coefficients := ReadCoefficients(coeffLines, toReal);
    if coefficients.None? {
      return None;
    }
    r := ReduceAndWrite(samples, Inputs(unitAverages.value, averages.value, coefficients.value), show, sqrt, order);
  }

  /** Both passes over the samples, the console loop and the two files. */
  method ReduceAndWrite(samples: seq<Sample>, inputs: Inputs, show: real -> string, sqrt: real -> real, order: seq<string>)
    returns (r: Option<Output>)
    requires AllWellFormed(samples) && Sized(inputs)
    requires Distinct(order) && forall k :: k in order <==> k in SampleKeys(samples)
    ensures r == ReducedOutput(samples, inputs, show, sqrt, order)
  {
    var table := ReducedPass(samples, inputs);
    if table.None? {
      return None;
    }
    ghost var cs := Contributions(samples, inputs).value;
    var t := table.value;
    var avgs := ComputeAverages(t, StrategiesOfKey);
    var dev := ReducedDeviationPass(samples, inputs, cs, avgs);
    var stds := ComputeStdDevs(dev, t.samples, sqrt);
    var red := Reduced(t, avgs, stds);
    assert red == Reduce(cs, sqrt);
    var fits := CheckConsole(inputs.averages, stds);
    if !fits {
      return None;
    }
    InputsReportable(samples, inputs, sqrt);
    TableKeys(samples, inputs);
    var output := WriteFiles(red, inputs, show, order);
    return Some(output);
  }

  /** The JSON print loop, then the StringBuilder loop of the plain report. */
  method WriteFiles(red: Reduced, inputs: Inputs, show: real -> string, order: seq<string>) returns (o: Output)
    requires Reportable(red.table, StrategiesOfKey, red.averages, red.stds)
    requires Reportable(red.table, StrategiesOfKey, inputs.averages, red.stds)
    requires Distinct(order) && forall k :: k in order <==> k in red.table.samples
    ensures o == Outputs(red, inputs, show, order)
  {
    var json := WriteGame(Header, EntriesOf(ReportBlocks(red.table, StrategiesOfKey, red.averages, red.stds, show, order)));
    var plain := EmitReport(red.table, StrategiesOfKey, inputs.averages, red.stds, show, order);
    o := Output(json, plain);
  }
}
