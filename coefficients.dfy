/**
 * CalculateCoefficients: reads the average normalised unit values and the
 * average-payoff report, walks the agents of every sample to sum the
 * covariance data of the unit values and the variance data of payoff
 * against normalised value, divides both by K - 1 (K the number of agents
 * the walk visited), solves the linear system and writes the UNITS control
 * variate coefficients, one per line.
 *
 * The variance loop is written `for (int u = 0; i < UNITS; i++)`: it tests
 * and advances the agent index i, not u.  So u stays 0, the first agent of
 * every sample adds its slot-0 term UNITS times, the agent index jumps to
 * UNITS, and the agents 1 .. UNITS of every sample are never visited.  The
 * model follows the loop as written; the corrected loop is modelled beside
 * it.
 */
module ControlVariates {
  import opened Wrappers
  import opened JavaStrings
  import opened Sorting
  import opened Market
  import opened Profiles
  import opened Readers

  /**
   * One agent the walk visits: its unit values, its average payoff over the
   * repetitions, its profile's parsed average for its strategy, and its
   * position in <scores>.
   */
  datatype Observation = Observation(values: seq<int>, payoff: real, centre: real, index: nat)

  predicate Observed(o: Observation) {
    |o.values| >= UNITS
  }

  predicate AllObserved(obs: seq<Observation>) {
    forall j :: 0 <= j < |obs| ==> Observed(obs[j])
  }

  // ---------------------------------------------------------------------
  // Which agents the walk visits

  /** The agents of a sample of n that the walk visits, in visiting order: agent 0, then UNITS + 1 onwards. */
  function Visits(n: nat): (vs: seq<nat>)
    ensures forall j :: 0 <= j < |vs| ==> vs[j] < n
  {
    if n == 0 then [] else if n <= UNITS + 1 then [0] else Visits(n - 1) + [n - 1]
  }

  /** Agent i is visited exactly when it is the first or comes after agent UNITS, and each visit is to a later agent. */
  lemma {:induction false} VisitsMembers(n: nat)
    ensures forall i :: i in Visits(n) <==> i < n && (i == 0 || UNITS < i)
    ensures |Visits(n)| == if n == 0 then 0 else if n <= UNITS + 1 then 1 else n - UNITS
    ensures forall j, k :: 0 <= j < k < |Visits(n)| ==> Visits(n)[j] < Visits(n)[k]
    ensures n > 0 ==> Visits(n)[0] == 0
    ensures forall j :: 0 < j < |Visits(n)| ==> UNITS < Visits(n)[j]
  {
    if n > UNITS + 1 {
      VisitsMembers(n - 1);
    }
  }

  /** A sample of two agents is walked as one: the second agent enters neither K nor the sums. */
  lemma VisitsSkipAgents()
    ensures Visits(2) == [0]
    ensures Visits(UNITS + 3) == [0, UNITS + 1, UNITS + 2]
  {
    assert Visits(UNITS + 2) == [0, UNITS + 1];
  }

  /** One turn of the agent loop: from agent i the index moves to the next visited agent. */
  lemma VisitsNext(i: nat, n: nat)
    requires i < n && (i == 0 || UNITS < i)
    ensures var next := (if i < UNITS then UNITS else i) + 1;
      Visits(if next < n then next else n) == Visits(i) + [i]
  {
  }

  // ---------------------------------------------------------------------
  // What one visited agent is

  /**
   * Agent i as the walk sees it: its average payoff and the parsed average
   * of its strategy in its profile; a profile missing from the report, or a
   * strategy position past its payoff array, is an exception.
   */
  function Observe(s: Sample, averages: map<string, seq<real>>, i: nat): (r: Option<Observation>)
    requires WellFormed(s) && i < |s.agents|
    ensures r.Some? ==> Observed(r.value) && r.value.index == i && r.value.values == s.agents[i].values
  {
    var names := Names(s.agents);
    var key, k := SampleKey(names), IndexOf(SortedStrategies(names), s.agents[i].strategy);
    WellFormedPricesFit(s, i);
    if key in averages && 0 <= k < |averages[key]| then
      Some(Observation(s.agents[i].values, AverageOverReps(Bucketed(s.repetitions), s.agents[i]), averages[key][k], i))
    else None
  }

  /** The agents at the given positions, or None when one of them cannot be looked up. */
  function ObserveAll(s: Sample, averages: map<string, seq<real>>, vs: seq<nat>): (r: Option<seq<Observation>>)
    requires WellFormed(s) && forall j :: 0 <= j < |vs| ==> vs[j] < |s.agents|
    ensures r.Some? <==> forall j :: 0 <= j < |vs| ==> Observe(s, averages, vs[j]).Some?
    ensures r.Some? ==> |r.value| == |vs| && AllObserved(r.value)
    ensures r.Some? ==> forall j :: 0 <= j < |vs| ==> Some(r.value[j]) == Observe(s, averages, vs[j])
  {
    if forall j :: 0 <= j < |vs| ==> Observe(s, averages, vs[j]).Some? then
      Some(seq(|vs|, j requires 0 <= j < |vs| => Observe(s, averages, vs[j]).value))
    else None
  }

  /** The agents the walk visits in one sample. */
  function SampleObservations(s: Sample, averages: map<string, seq<real>>): (r: Option<seq<Observation>>)
    requires WellFormed(s)
  {
    ObserveAll(s, averages, Visits(|s.agents|))
  }

  /** The visited agents of all samples in file order; the first failed lookup ends the program. */
  function Observations(samples: seq<Sample>, averages: map<string, seq<real>>): (r: Option<seq<Observation>>)
    requires AllWellFormed(samples)
    ensures r.Some? ==> AllObserved(r.value)
  {
    if |samples| == 0 then Some([])
    else
      var n := |samples| - 1;
      assert forall i :: 0 <= i < n ==> samples[..n][i] == samples[i];
      var init := Observations(samples[..n], averages);
      var last := SampleObservations(samples[n], averages);
      if init.Some? && last.Some? then
        AllObservedAppend(init.value, last.value);
        Some(init.value + last.value)
      else None
  }

  /** The walk succeeds exactly when every sample's lookups succeed. */
  lemma {:induction false} ObservationsDefined(samples: seq<Sample>, averages: map<string, seq<real>>)
    requires AllWellFormed(samples)
    ensures Observations(samples, averages).Some? <==> forall i :: 0 <= i < |samples| ==> SampleObservations(samples[i], averages).Some?
  {
    if |samples| > 0 {
      var n := |samples| - 1;
      assert forall i :: 0 <= i < n ==> samples[..n][i] == samples[i];
      ObservationsDefined(samples[..n], averages);
    }
  }

  /** One sample without observations leaves the whole walk without them. */
  lemma SampleMissing(samples: seq<Sample>, averages: map<string, seq<real>>, i: nat)
    requires AllWellFormed(samples) && i < |samples| && SampleObservations(samples[i], averages).None?
    ensures Observations(samples, averages).None?
  {
    ObservationsDefined(samples, averages);
  }

  lemma AllObservedAppend(a: seq<Observation>, b: seq<Observation>)
    requires AllObserved(a) && AllObserved(b)
    ensures AllObserved(a + b)
  {
    forall j | 0 <= j < |a + b| ensures Observed((a + b)[j]) {
      if j < |a| { assert (a + b)[j] == a[j]; } else { assert (a + b)[j] == b[j - |a|]; }
    }
  }

  // ---------------------------------------------------------------------
  // The sums

  /** What the covariance loops add at (q, r) for one agent: the product of the raw values' distances from the unit averages. */
  function Cross(o: Observation, ua: seq<real>, q: nat, r: nat): real
    requires Observed(o) && |ua| == UNITS && q < UNITS && r < UNITS
  {
    (o.values[q] as real - ua[q]) * (o.values[r] as real - ua[r])
  }

  function CrossSum(obs: seq<Observation>, ua: seq<real>, q: nat, r: nat): real
    requires AllObserved(obs) && |ua| == UNITS && q < UNITS && r < UNITS
  {
    if |obs| == 0 then 0.0 else CrossSum(obs[..|obs| - 1], ua, q, r) + Cross(obs[|obs| - 1], ua, q, r)
  }

  /** The agent's payoff distance from its profile average times unit u's normalised value distance from its average. */
  function Term(o: Observation, ua: seq<real>, u: nat): real
    requires Observed(o) && |ua| == UNITS && u < UNITS
  {
    (o.payoff - o.centre) * (NormalizedValue(IsBuyer(o.values), o.values[u]) as real - ua[u])
  }

  /** How often the variance loop body runs for an agent at index i: until the index reaches UNITS. */
  function Repeats(i: nat): nat {
    if i < UNITS then UNITS - i else 0
  }

  /** What the variance loop adds to slot u for one agent: since u stays 0, only slot 0 grows, once per turn. */
  function VarianceAdded(o: Observation, ua: seq<real>, u: nat): real
    requires Observed(o) && |ua| == UNITS && u < UNITS
  {
    if u == 0 then Copies(Repeats(o.index), Term(o, ua, 0)) else 0.0
  }

  function VarianceSum(obs: seq<Observation>, ua: seq<real>, u: nat): real
    requires AllObserved(obs) && |ua| == UNITS && u < UNITS
  {
    if |obs| == 0 then 0.0 else VarianceSum(obs[..|obs| - 1], ua, u) + VarianceAdded(obs[|obs| - 1], ua, u)
  }

  lemma {:induction false} VarianceSumAppend(a: seq<Observation>, b: seq<Observation>, ua: seq<real>, u: nat)
    requires AllObserved(a) && AllObserved(b) && |ua| == UNITS && u < UNITS
    ensures AllObserved(a + b) && VarianceSum(a + b, ua, u) == VarianceSum(a, ua, u) + VarianceSum(b, ua, u)
  {
    if |b| == 0 {
      assert a + b == a;
    } else {
      var init := b[..|b| - 1];
      VarianceSumAppend(a, init, ua, u);
      assert (a + b)[..|a + b| - 1] == a + init;
      assert (a + b)[|a + b| - 1] == b[|b| - 1];
    }
  }

  /** The covariance data is symmetric. */
  lemma {:induction false} CrossSumSymmetric(obs: seq<Observation>, ua: seq<real>, q: nat, r: nat)
    requires AllObserved(obs) && |ua| == UNITS && q < UNITS && r < UNITS
    ensures CrossSum(obs, ua, q, r) == CrossSum(obs, ua, r, q)
  {
    if |obs| > 0 {
      CrossSumSymmetric(obs[..|obs| - 1], ua, q, r);
    }
  }

  /** Its diagonal is a sum of squares. */
  lemma {:induction false} CrossSumDiagonal(obs: seq<Observation>, ua: seq<real>, q: nat)
    requires AllObserved(obs) && |ua| == UNITS && q < UNITS
    ensures CrossSum(obs, ua, q, q) >= 0.0
  {
    if |obs| > 0 {
      CrossSumDiagonal(obs[..|obs| - 1], ua, q);
      var d := obs[|obs| - 1].values[q] as real - ua[q];
      assert Cross(obs[|obs| - 1], ua, q, q) == d * d;
    }
  }

  /** The variance data has nothing but zeros past slot 0. */
  lemma {:induction false} VarianceOnlyFirstSlot(obs: seq<Observation>, ua: seq<real>, u: nat)
    requires AllObserved(obs) && |ua| == UNITS && 0 < u < UNITS
    ensures VarianceSum(obs, ua, u) == 0.0
  {
    if |obs| > 0 {
      VarianceOnlyFirstSlot(obs[..|obs| - 1], ua, u);
    }
  }

  /** Agents past index UNITS add nothing to the variance data: only the first agent of a sample, UNITS times. */
  lemma {:induction false} VarianceOfLateAgents(obs: seq<Observation>, ua: seq<real>)
    requires AllObserved(obs) && |ua| == UNITS
    requires forall j :: 0 <= j < |obs| ==> obs[j].index > UNITS
    ensures VarianceSum(obs, ua, 0) == 0.0
  {
    if |obs| > 0 {
      VarianceOfLateAgents(obs[..|obs| - 1], ua);
    }
  }

  /** Observations led by an agent at index 0 and followed only by agents past UNITS: UNITS times the leader's slot-0 term. */
  lemma FirstAgentVariance(obs: seq<Observation>, ua: seq<real>)
    requires AllObserved(obs) && |ua| == UNITS && |obs| > 0 && obs[0].index == 0
    requires forall j :: 0 < j < |obs| ==> obs[j].index > UNITS
    ensures VarianceSum(obs, ua, 0) == Copies(UNITS, Term(obs[0], ua, 0))
  {
    var t, rest := Term(obs[0], ua, 0), obs[1..];
    VarianceOfLateAgents(rest, ua);
    VarianceSumAppend([obs[0]], rest, ua, 0);
    assert [obs[0]] + rest == obs;
    assert VarianceSum([obs[0]], ua, 0) == Copies(Repeats(0), t) by {
      assert [obs[0]][..0] == [];
    }
  }

  lemma UnitsCopies(t: real)
    ensures Copies(UNITS, t) == (UNITS as real) * t
  {
    CopiesTimes(UNITS, t);
  }

  /** A sample's variance data is UNITS times its first agent's slot-0 term. */
  lemma SampleVariance(s: Sample, averages: map<string, seq<real>>, ua: seq<real>)
    requires WellFormed(s) && |ua| == UNITS && SampleObservations(s, averages).Some?
    ensures var obs := SampleObservations(s, averages).value;
      |obs| > 0 && VarianceSum(obs, ua, 0) == (UNITS as real) * Term(obs[0], ua, 0)
  {
    var obs := SampleObservations(s, averages).value;
    VisitedIndices(s, averages);
    FirstAgentVariance(obs, ua);
    UnitsCopies(Term(obs[0], ua, 0));
  }

  /** The sample's observations are led by agent 0 and followed only by agents past index UNITS. */
  lemma VisitedIndices(s: Sample, averages: map<string, seq<real>>)
    requires WellFormed(s) && SampleObservations(s, averages).Some?
    ensures var obs := SampleObservations(s, averages).value;
      && AllObserved(obs) && |obs| > 0 && obs[0].index == 0
      && forall j :: 0 < j < |obs| ==> obs[j].index > UNITS
  {
    var obs := SampleObservations(s, averages).value;
    var vs := Visits(|s.agents|);
    VisitsMembers(|s.agents|);
    forall j | 0 <= j < |obs| ensures obs[j].index == vs[j] {
      assert Some(obs[j]) == Observe(s, averages, vs[j]);
    }
  }

  // ---------------------------------------------------------------------
  // The estimates and the output

  /** SigmaData and sigmaData after the division by K - 1. */
  datatype Estimates = Estimates(covariance: seq<seq<real>>, variance: seq<real>)

  /** The sums divided by K - 1; K == 1 divides by zero, which the model reports as no result. */
  function Estimate(obs: seq<Observation>, ua: seq<real>): (e: Option<Estimates>)
    requires AllObserved(obs) && |ua| == UNITS
    ensures e.Some? <==> |obs| != 1
    ensures e.Some? ==> |e.value.covariance| == UNITS && |e.value.variance| == UNITS
    ensures e.Some? ==> forall q :: 0 <= q < UNITS ==> |e.value.covariance[q]| == UNITS
  {
    if |obs| == 1 then None
    else
      var d := (|obs| - 1) as real;
      Some(Estimates(seq(UNITS, q requires 0 <= q < UNITS => seq(UNITS, r requires 0 <= r < UNITS => CrossSum(obs, ua, q, r) / d)),
                     seq(UNITS, u requires 0 <= u < UNITS => VarianceSum(obs, ua, u) / d)))
  }

  /** The covariance estimate is a symmetric matrix with a non-negative diagonal. */
  lemma CovarianceShape(obs: seq<Observation>, ua: seq<real>, q: nat, r: nat)
    requires AllObserved(obs) && |ua| == UNITS && |obs| != 1 && q < UNITS && r < UNITS
    ensures Estimate(obs, ua).value.covariance[q][r] == Estimate(obs, ua).value.covariance[r][q]
    ensures Estimate(obs, ua).value.covariance[q][q] >= 0.0
  {
    CrossSumSymmetric(obs, ua, q, r);
    CrossSumDiagonal(obs, ua, q);
    if |obs| == 0 {
      assert CrossSum(obs, ua, q, q) == 0.0;
    }
  }

  /** The variance estimate is zero in every slot but the first. */
  lemma VarianceShape(obs: seq<Observation>, ua: seq<real>, u: nat)
    requires AllObserved(obs) && |ua| == UNITS && |obs| != 1 && 0 < u < UNITS
    ensures Estimate(obs, ua).value.variance[u] == 0.0
  {
    VarianceOnlyFirstSlot(obs, ua, u);
  }

  /** The output lines: coeffs.getEntry(u, 0) for every unit; an entry past the solution is an exception. */
  function CoefficientLines(c: seq<real>, show: real -> string): (lines: Option<seq<string>>)
    ensures lines.Some? <==> |c| >= UNITS
    ensures lines.Some? ==> |lines.value| == UNITS
  {
    if |c| < UNITS then None else Some(seq(UNITS, u requires 0 <= u < UNITS => show(c[u])))
  }

  /** The coefficients file, read the way the reduced-variance program reads it, gives back the solution. */
  lemma CoefficientLinesReadBack(c: seq<real>, show: real -> string, toReal: string -> Option<real>)
    requires |c| >= UNITS && ReadsTrimmedAsDoubles(show, toReal)
    ensures Coefficients(CoefficientLines(c, show).value, toReal) == Some(c[..UNITS])
  {
    var lines := CoefficientLines(c, show).value;
    forall u | 0 <= u < UNITS
      ensures toReal(Trim(lines[u])) == Some(c[u])
    {
      assert lines[u] == show(c[u]);
      ReadBackValue(show, toReal, c[u]);
    }
    assert Coefficients(lines, toReal).value == c[..UNITS];
  }

  /**
   * The whole program: the two input files, the walk over the samples in
   * directory order, the estimates, then solve, which stands for the LU
   * inverse of the covariance matrix times the variance vector (None where
   * the matrix is singular), and the printed solution.
   */
  function CoefficientsFile(samples: seq<Sample>, unitLines: seq<string>, reportLines: seq<string>,
                            toReal: string -> Option<real>, solve: (seq<seq<real>>, seq<real>) -> Option<seq<real>>,
                            show: real -> string): Option<seq<string>>
    requires AllWellFormed(samples)
  {
    var ua, averages := UnitValues(unitLines, toReal), ParsedAverages(reportLines, toReal);
    if ua.None? || averages.None? then None
    else
      var obs := Observations(samples, averages.value);
      if obs.None? then None
      else
        var e := Estimate(obs.value, ua.value);
        if e.None? then None
        else
          var c := solve(e.value.covariance, e.value.variance);
          if c.None? then None else CoefficientLines(c.value, show)
  }

  /** Whatever the program writes, the reduced-variance program reads back as its coefficients. */
  lemma CoefficientsFileReadBack(samples: seq<Sample>, unitLines: seq<string>, reportLines: seq<string>,
                                 toReal: string -> Option<real>, solve: (seq<seq<real>>, seq<real>) -> Option<seq<real>>,
                                 show: real -> string)
    requires AllWellFormed(samples) && ReadsTrimmedAsDoubles(show, toReal)
    requires CoefficientsFile(samples, unitLines, reportLines, toReal, solve, show).Some?
    ensures var lines := CoefficientsFile(samples, unitLines, reportLines, toReal, solve, show).value;
      |lines| == UNITS && Coefficients(lines, toReal).Some?
  {
    var ua, averages := UnitValues(unitLines, toReal).value, ParsedAverages(reportLines, toReal).value;
    var e := Estimate(Observations(samples, averages).value, ua).value;
    CoefficientLinesReadBack(solve(e.covariance, e.variance).value, show, toReal);
  }

  // ---------------------------------------------------------------------
  // The variance loop as evidently intended

  /** Every agent in <scores> order, which the walk visits once the variance loop no longer moves the agent index. */
  function AllAgents(n: nat): (vs: seq<nat>)
    ensures |vs| == n && forall j :: 0 <= j < n ==> vs[j] == j
  {
    seq(n, j requires 0 <= j < n => j)
  }

  function CorrectedSampleObservations(s: Sample, averages: map<string, seq<real>>): (r: Option<seq<Observation>>)
    requires WellFormed(s)
  {
    ObserveAll(s, averages, AllAgents(|s.agents|))
  }

  /** With the corrected loop every agent of the sample is observed exactly once, in order. */
  lemma CorrectedVisitsEveryAgent(s: Sample, averages: map<string, seq<real>>)
    requires WellFormed(s) && CorrectedSampleObservations(s, averages).Some?
    ensures var obs := CorrectedSampleObservations(s, averages).value;
      |obs| == |s.agents| && forall i :: 0 <= i < |s.agents| ==> obs[i].index == i && obs[i].values == s.agents[i].values
  {
    var obs := CorrectedSampleObservations(s, averages).value;
    forall i | 0 <= i < |s.agents| ensures obs[i].index == i && obs[i].values == s.agents[i].values {
      assert Some(obs[i]) == Observe(s, averages, AllAgents(|s.agents|)[i]);
    }
  }

  /** The corrected variance data: slot u sums every agent's slot-u term once. */
  function CorrectedVarianceSum(obs: seq<Observation>, ua: seq<real>, u: nat): real
    requires AllObserved(obs) && |ua| == UNITS && u < UNITS
  {
    if |obs| == 0 then 0.0 else CorrectedVarianceSum(obs[..|obs| - 1], ua, u) + Term(obs[|obs| - 1], ua, u)
  }

  /**
   * One agent alone shows the loop as written at fault: slot 0 gets UNITS
   * times the intended term and slot 1 gets nothing instead of its term.
   */
  lemma AsWrittenVariance(o: Observation, ua: seq<real>)
    requires Observed(o) && |ua| == UNITS && o.index == 0
    ensures VarianceSum([o], ua, 0) == (UNITS as real) * CorrectedVarianceSum([o], ua, 0)
    ensures VarianceSum([o], ua, 1) == 0.0 && CorrectedVarianceSum([o], ua, 1) == Term(o, ua, 1)
  {
    assert [o][..0] == [];
    UnitsCopies(Term(o, ua, 0));
  }

  /** The loop body's increment, written with the normalized value it computes. */
  lemma TermIs(o: Observation, ua: seq<real>, u: nat, n: int)
    requires Observed(o) && |ua| == UNITS && u < UNITS
    requires n == if o.values[0] > o.values[|o.values| - 1] then o.values[u] - V_MIN else V_MAX - o.values[u]
    ensures Term(o, ua, u) == (o.payoff - o.centre) * (n as real - ua[u])
  {
    assert n == NormalizedValue(IsBuyer(o.values), o.values[u]);
  }

  /** The corrected loop: for (int u = 0; u < UNITS; u++), leaving the agent index alone. */
  method AddVarianceCorrected(sigma: array<real>, o: Observation, ua: seq<real>)
    requires Observed(o) && |ua| == UNITS && sigma.Length == UNITS
    modifies sigma
    ensures forall u :: 0 <= u < UNITS ==> sigma[u] == old(sigma[u]) + Term(o, ua, u)
  {
    var isBuyer := o.values[0] > o.values[|o.values| - 1];
    for u := 0 to UNITS
      invariant forall v :: 0 <= v < u ==> sigma[v] == old(sigma[v]) + Term(o, ua, v)
      invariant forall v :: u <= v < UNITS ==> sigma[v] == old(sigma[v])
    {
      var normalizedValue := if isBuyer then o.values[u] - V_MIN else V_MAX - o.values[u];
      TermIs(o, ua, u, normalizedValue);
      var delta := (o.payoff - o.centre) * (normalizedValue as real - ua[u]);
      sigma[u] := sigma[u] + delta;
    }
  }

  /** The corrected loop adds what the corrected variance data counts for the agent. */
  lemma CorrectedVarianceStep(obs: seq<Observation>, o: Observation, ua: seq<real>, u: nat)
    requires AllObserved(obs) && Observed(o) && |ua| == UNITS && u < UNITS
    ensures AllObserved(obs + [o])
    ensures CorrectedVarianceSum(obs + [o], ua, u) == CorrectedVarianceSum(obs, ua, u) + Term(o, ua, u)
  {
    assert (obs + [o])[..|obs|] == obs;
  }

  // ---------------------------------------------------------------------
  // The loops

  /** The variance loop for one agent: u stays 0 while the agent index climbs to UNITS. */
  method AddVariance(sigma: array<real>, o: Observation, ua: seq<real>, start: nat) returns (i: nat)
    requires Observed(o) && |ua| == UNITS && sigma.Length == UNITS && o.index == start
    modifies sigma
    ensures i == if start < UNITS then UNITS else start
    ensures forall u :: 0 <= u < UNITS ==> sigma[u] == old(sigma[u]) + VarianceAdded(o, ua, u)
  {
    var isBuyer := o.values[0] > o.values[|o.values| - 1];
    ghost var t := Term(o, ua, 0);
    var u := 0;
    i := start;
    while i < UNITS
      invariant u == 0
      invariant start <= i && (start < UNITS ==> i <= UNITS) && (start >= UNITS ==> i == start)
      invariant sigma[0] == old(sigma[0]) + Copies(i - start, t)
      invariant forall v :: 1 <= v < UNITS ==> sigma[v] == old(sigma[v])
    {
      var normalizedValue := if isBuyer then o.values[u] - V_MIN else V_MAX - o.values[u];
      TermIs(o, ua, 0, normalizedValue);
      var delta := (o.payoff - o.centre) * (normalizedValue as real - ua[u]);
      assert delta == t;
      assert Copies(i + 1 - start, t) == Copies(i - start, t) + t;
      sigma[u] := sigma[u] + delta;
      i := i + 1;
    }
  }

  /** The covariance loops for one agent. */
  method AddCross(Sigma: array2<real>, o: Observation, ua: seq<real>)
    requires Observed(o) && |ua| == UNITS && Sigma.Length0 == UNITS && Sigma.Length1 == UNITS
    modifies Sigma
    ensures forall q, r :: 0 <= q < UNITS && 0 <= r < UNITS ==> Sigma[q, r] == old(Sigma[q, r]) + Cross(o, ua, q, r)
  {
    for q := 0 to UNITS
      invariant forall q', r :: 0 <= q' < q && 0 <= r < UNITS ==> Sigma[q', r] == old(Sigma[q', r]) + Cross(o, ua, q', r)
      invariant forall q', r :: q <= q' < UNITS && 0 <= r < UNITS ==> Sigma[q', r] == old(Sigma[q', r])
    {
      for r := 0 to UNITS
        invariant forall q', r' :: 0 <= q' < q && 0 <= r' < UNITS ==> Sigma[q', r'] == old(Sigma[q', r']) + Cross(o, ua, q', r')
        invariant forall r' :: 0 <= r' < r ==> Sigma[q, r'] == old(Sigma[q, r']) + Cross(o, ua, q, r')
        invariant forall r' :: r <= r' < UNITS ==> Sigma[q, r'] == old(Sigma[q, r'])
        invariant forall q', r' :: q < q' < UNITS && 0 <= r' < UNITS ==> Sigma[q', r'] == old(Sigma[q', r'])
      {
        Sigma[q, r] := Sigma[q, r] + (o.values[q] as real - ua[q]) * (o.values[r] as real - ua[r]);
      }
    }
  }

  /** The covariance and variance arrays hold the sums over the observations so far. */
  ghost predicate Holds(Sigma: array2<real>, sigma: array<real>, obs: seq<Observation>, ua: seq<real>)
    requires AllObserved(obs) && |ua| == UNITS
    requires Sigma.Length0 == UNITS && Sigma.Length1 == UNITS && sigma.Length == UNITS
    reads Sigma, sigma
  {
    && (forall q, r :: 0 <= q < UNITS && 0 <= r < UNITS ==> Sigma[q, r] == CrossSum(obs, ua, q, r))
    && (forall u :: 0 <= u < UNITS ==> sigma[u] == VarianceSum(obs, ua, u))
  }

  /**
   * One turn of the agent loop: K++, the agent's payoff over the
   * repetitions, its profile average (None when the lookup fails), the
   * variance loop, which moves the agent index on, and the covariance
   * loops.
   */
  method VisitAgent(s: Sample, book: PriceBook, strategies: seq<string>, key: string, averages: map<string, seq<real>>,
                    ua: seq<real>, Sigma: array2<real>, sigma: array<real>, i: nat, ghost prior: seq<Observation>)
    returns (o: Option<Observation>, next: nat)
    requires WellFormed(s) && i < |s.agents| && |ua| == UNITS && AllObserved(prior)
    requires book == Bucketed(s.repetitions) && strategies == SortedStrategies(Names(s.agents)) && key == SampleKey(Names(s.agents))
    requires Sigma.Length0 == UNITS && Sigma.Length1 == UNITS && sigma.Length == UNITS
    requires Holds(Sigma, sigma, prior, ua)
    modifies Sigma, sigma
    ensures o == Observe(s, averages, i)
    ensures o.Some? ==> next == (if i < UNITS then UNITS else i) + 1
    ensures o.Some? ==> AllObserved(prior + [o.value]) && Holds(Sigma, sigma, prior + [o.value], ua)
  {
    var a := s.agents[i];
    WellFormedPricesFit(s, i);
    var payoff := AgentPayoff(book, a);
    var k := IndexOf(strategies, a.strategy);
    if key !in averages || !(0 <= k < |averages[key]|) {
      return None, i;
    }
    var observation := Observation(a.values, payoff, averages[key][k], i);
    next := AddVariance(sigma, observation, ua, i);
    AddCross(Sigma, observation, ua);
    next := next + 1;
    o := Some(observation);
    assert (prior + [observation])[..|prior|] == prior;
  }

  /** VisitAgent, and what its result does to the loop's view of the sample. */
  method AgentStep(s: Sample, book: PriceBook, strategies: seq<string>, key: string, averages: map<string, seq<real>>,
                   ua: seq<real>, Sigma: array2<real>, sigma: array<real>, i: nat,
                   ghost prior: seq<Observation>, ghost seen: seq<Observation>)
    returns (o: Option<Observation>, next: nat)
    requires WellFormed(s) && i < |s.agents| && (i == 0 || UNITS < i) && |ua| == UNITS
    requires book == Bucketed(s.repetitions) && strategies == SortedStrategies(Names(s.agents)) && key == SampleKey(Names(s.agents))
    requires Sigma.Length0 == UNITS && Sigma.Length1 == UNITS && sigma.Length == UNITS
    requires Saw(s, averages, seen, i) && AllObserved(seen) && AllObserved(prior + seen)
    requires Holds(Sigma, sigma, prior + seen, ua)
    modifies Sigma, sigma
    ensures o.None? ==> SampleObservations(s, averages).None?
    ensures o.Some? ==> o.value.index == i && next == (if i < UNITS then UNITS else i) + 1
    ensures o.Some? ==> Saw(s, averages, seen + [o.value], if next < |s.agents| then next else |s.agents|)
    ensures o.Some? ==> AllObserved(seen + [o.value]) && AllObserved(prior + (seen + [o.value]))
    ensures o.Some? ==> Holds(Sigma, sigma, prior + (seen + [o.value]), ua)
  {
    o, next := VisitAgent(s, book, strategies, key, averages, ua, Sigma, sigma, i, prior + seen);
    if o.None? {
      MissedVisit(s, averages, i);
      return;
    }
    SeeNext(s, averages, seen, i, o.value);
    assert prior + seen + [o.value] == prior + (seen + [o.value]);
  }

  /**
   * The agent loop of one sample.  It returns the agents it visited, or
   * None at the first failed lookup.
   */
  method AddSample(s: Sample, averages: map<string, seq<real>>, ua: seq<real>, Sigma: array2<real>, sigma: array<real>,
                   ghost prior: seq<Observation>)
    returns (obs: Option<seq<Observation>>)
    requires WellFormed(s) && |ua| == UNITS && AllObserved(prior)
    requires Sigma.Length0 == UNITS && Sigma.Length1 == UNITS && sigma.Length == UNITS
    requires Holds(Sigma, sigma, prior, ua)
    modifies Sigma, sigma
    ensures obs == SampleObservations(s, averages)
    ensures obs.Some? ==> AllObserved(prior + obs.value) && Holds(Sigma, sigma, prior + obs.value, ua)
  {
    var book := BucketTransactions(s.repetitions);
    var strategies, key := IdentifyProfile(Names(s.agents));
    var seen: seq<Observation> := [];
    assert prior + seen == prior;
    var i := 0;
    while i < |s.agents|
      invariant i == 0 || UNITS < i
      invariant Saw(s, averages, seen, if i < |s.agents| then i else |s.agents|)
      invariant AllObserved(seen) && AllObserved(prior + seen)
      invariant Holds(Sigma, sigma, prior + seen, ua)
      decreases |s.agents| - i
    {
      var o, next := AgentStep(s, book, strategies, key, averages, ua, Sigma, sigma, i, prior, seen);
      if o.None? {
        return None;
      }
      seen := seen + [o.value];
      i := next;
    }
    SawAll(s, averages, seen);
    obs := Some(seen);
  }

  /** A visited agent whose lookup fails makes the whole sample fail. */
  lemma MissedVisit(s: Sample, averages: map<string, seq<real>>, i: nat)
    requires WellFormed(s) && i < |s.agents| && (i == 0 || UNITS < i) && Observe(s, averages, i).None?
    ensures SampleObservations(s, averages).None?
  {
    VisitsMembers(|s.agents|);
    assert i in Visits(|s.agents|);
    var j :| 0 <= j < |Visits(|s.agents|)| && Visits(|s.agents|)[j] == i;
  }

  /** The loop has seen the agents visited among the first m, in order. */
  ghost predicate Saw(s: Sample, averages: map<string, seq<real>>, seen: seq<Observation>, m: nat)
    requires WellFormed(s) && m <= |s.agents|
  {
    var vs := Visits(m);
    |seen| == |vs| && forall j :: 0 <= j < |seen| ==> Some(seen[j]) == Observe(s, averages, vs[j])
  }

  /** Seeing agent i extends what the loop has seen up to the next visited agent. */
  lemma SeeNext(s: Sample, averages: map<string, seq<real>>, seen: seq<Observation>, i: nat, o: Observation)
    requires WellFormed(s) && i < |s.agents| && (i == 0 || UNITS < i)
    requires Saw(s, averages, seen, i) && Observe(s, averages, i) == Some(o)
    ensures var next := (if i < UNITS then UNITS else i) + 1;
      Saw(s, averages, seen + [o], if next < |s.agents| then next else |s.agents|)
  {
    VisitsNext(i, |s.agents|);
  }

  /** Having seen every visited agent, the loop holds the sample's observations. */
  lemma SawAll(s: Sample, averages: map<string, seq<real>>, seen: seq<Observation>)
    requires WellFormed(s) && Saw(s, averages, seen, |s.agents|)
    ensures SampleObservations(s, averages) == Some(seen)
  {
    var vs := Visits(|s.agents|);
    assert forall j :: 0 <= j < |vs| ==> Observe(s, averages, vs[j]).Some?;
    var r := ObserveAll(s, averages, vs);
    assert forall j :: 0 <= j < |seen| ==> r.value[j] == seen[j];
    assert r.value == seen;
  }

  /** The in-place division of SigmaData by K - 1. */
  method AverageCovariance(Sigma: array2<real>, K: int)
    requires Sigma.Length0 == UNITS && Sigma.Length1 == UNITS && K != 1
    modifies Sigma
    ensures forall q, r :: 0 <= q < UNITS && 0 <= r < UNITS ==> Sigma[q, r] == old(Sigma[q, r]) / (K - 1) as real
  {
    for i := 0 to UNITS
      invariant forall q, r :: 0 <= q < i && 0 <= r < UNITS ==> Sigma[q, r] == old(Sigma[q, r]) / (K - 1) as real
      invariant forall q, r :: i <= q < UNITS && 0 <= r < UNITS ==> Sigma[q, r] == old(Sigma[q, r])
    {
      for j := 0 to UNITS
        invariant forall q, r :: 0 <= q < i && 0 <= r < UNITS ==> Sigma[q, r] == old(Sigma[q, r]) / (K - 1) as real
        invariant forall r :: 0 <= r < j ==> Sigma[i, r] == old(Sigma[i, r]) / (K - 1) as real
        invariant forall r :: j <= r < UNITS ==> Sigma[i, r] == old(Sigma[i, r])
        invariant forall q, r :: i < q < UNITS && 0 <= r < UNITS ==> Sigma[q, r] == old(Sigma[q, r])
      {
        Sigma[i, j] := Sigma[i, j] / (K - 1) as real;
      }
    }
  }

  /** The in-place division of sigmaData by K - 1. */
  method AverageVariance(sigma: array<real>, K: int)
    requires sigma.Length == UNITS && K != 1
    modifies sigma
    ensures forall u :: 0 <= u < UNITS ==> sigma[u] == old(sigma[u]) / (K - 1) as real
  {
    for i := 0 to UNITS
      invariant forall u :: 0 <= u < i ==> sigma[u] == old(sigma[u]) / (K - 1) as real
      invariant forall u :: i <= u < UNITS ==> sigma[u] == old(sigma[u])
    {
      sigma[i] := sigma[i] / (K - 1) as real;
    }
  }

  /** The division by K - 1, and the matrix and vector handed to the solver. */
  method Averaged(Sigma: array2<real>, sigma: array<real>, K: int, ghost all: seq<Observation>, ua: seq<real>)
    returns (e: Estimates)
    requires AllObserved(all) && |ua| == UNITS && K == |all| && K != 1
    requires Sigma.Length0 == UNITS && Sigma.Length1 == UNITS && sigma.Length == UNITS
    requires Holds(Sigma, sigma, all, ua)
    modifies Sigma, sigma
    ensures Estimate(all, ua) == Some(e)
  {
    AverageCovariance(Sigma, K);
    AverageVariance(sigma, K);
    var covariance := seq(UNITS, q requires 0 <= q < UNITS reads Sigma =>
      seq(UNITS, r requires 0 <= r < UNITS reads Sigma => Sigma[q, r]));
    e := Estimates(covariance, sigma[..]);
    ghost var expected := Estimate(all, ua).value;
    assert forall q :: 0 <= q < UNITS ==> covariance[q] == expected.covariance[q];
    assert covariance == expected.covariance && e.variance == expected.variance;
  }

  /** The output loop: one getEntry(u, 0) per line. */
  method WriteCoefficients(c: seq<real>, show: real -> string) returns (lines: Option<seq<string>>)
    ensures lines == CoefficientLines(c, show)
  {
    var out: seq<string> := [];
    for u := 0 to UNITS
      invariant u <= |c| && |out| == u && forall v :: 0 <= v < u ==> out[v] == show(c[v])
    {
      if u >= |c| {
        return None;
      }
      out := out + [show(c[u])];
    }
    assert out == CoefficientLines(c, show).value;
    return Some(out);
  }

  /**
   * The loop over the sample files: K counts the visited agents, the arrays
   * hold the sums over them.
   */
  method WalkSamples(samples: seq<Sample>, averages: map<string, seq<real>>, ua: seq<real>, Sigma: array2<real>, sigma: array<real>)
    returns (K: Option<nat>)
    requires AllWellFormed(samples) && |ua| == UNITS
    requires Sigma.Length0 == UNITS && Sigma.Length1 == UNITS && sigma.Length == UNITS
    requires Holds(Sigma, sigma, [], ua)
    modifies Sigma, sigma
    ensures K.Some? <==> Observations(samples, averages).Some?
    ensures K.Some? ==> K.value == |Observations(samples, averages).value|
    ensures K.Some? ==> Holds(Sigma, sigma, Observations(samples, averages).value, ua)
  {
    var k := 0;
    ghost var all: seq<Observation> := [];
    for i := 0 to |samples|
      invariant Observations(samples[..i], averages) == Some(all)
      invariant k == |all|
      invariant Holds(Sigma, sigma, all, ua)
    {
      assert samples[..i + 1][..i] == samples[..i];
      var obs := AddSample(samples[i], averages, ua, Sigma, sigma, all);
      if obs.None? {
        SampleMissing(samples, averages, i);
        return None;
      }
      all := all + obs.value;
      k := k + |obs.value|;
    }
    assert samples[..|samples|] == samples;
    return Some(k);
  }

  /** main: read the inputs, walk the samples, average, solve and print. */
  method CalculateCoefficients(samples: seq<Sample>, unitLines: seq<string>, reportLines: seq<string>,
                               toReal: string -> Option<real>, solve: (seq<seq<real>>, seq<real>) -> Option<seq<real>>,
                               show: real -> string) returns (out: Option<seq<string>>)
    requires AllWellFormed(samples)
    ensures out == CoefficientsFile(samples, unitLines, reportLines, toReal, solve, show)
  {
    var ua := ReadUnitValues(unitLines, toReal);
    if ua.None? {
      return None;
    }
    var averages := ReadAverages(reportLines, toReal);
    if averages.None? {
      return None;
    }
    var Sigma := new real[UNITS, UNITS]((_, _) => 0.0);
    var sigma := new real[UNITS](_ => 0.0);
    var K := WalkSamples(samples, averages.value, ua.value, Sigma, sigma);
    if K.None? || K.value == 1 {
      return None;
    }
    var e := Averaged(Sigma, sigma, K.value, Observations(samples, averages.value).value, ua.value);
    var c := solve(e.covariance, e.variance);
    if c.None? {
      return None;
    }
    out := WriteCoefficients(c.value, show);
  }
}
