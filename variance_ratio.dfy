/**
 * CalculateVarianceReductionRatio: the same walk over the samples as
 * CalculateCoefficients (the same visited agents, the same sums), which
 * in addition records every visited agent's payoff, once in a list of
 * all payoffs and once in a list per profile and strategy.  From the
 * averaged sums it forms the numerator sigma' Sigma^-1 sigma and prints
 *
 *   R = ((K - 2) / (K - UNITS - 2)) * (1 - numerator / variance)
 *
 * where K is the number of visited agents and variance is the sample
 * variance of all their payoffs.
 *
 * The coefficients file is read (and must parse) but is not used.  The
 * "reduced" averages are parsed from the average-payoff report a second
 * time; the reduced-variance payoff file is only required to exist.
 * The per-profile lists are built but only the list of all payoffs
 * reaches the result.
 */
module VarianceRatio {
  import opened Wrappers
  import opened Market
  import opened Profiles
  import opened Readers
  import opened ControlVariates

  // ---------------------------------------------------------------------
  // The inputs

  datatype RatioInputs = RatioInputs(unitAverages: seq<real>, averages: map<string, seq<real>>,
                                     coefficients: seq<real>, reduced: map<string, seq<real>>)

  /**
   * The four reads at the start of the program, each of which ends it on
   * a malformed file; the reduced averages come from the report again.
   */
  function ReadRatioInputs(unitLines: seq<string>, reportLines: seq<string>, coeffLines: seq<string>,
                           toReal: string -> Option<real>): (r: Option<RatioInputs>)
    ensures r.Some? <==> UnitValues(unitLines, toReal).Some? && ParsedAverages(reportLines, toReal).Some?
                         && Coefficients(coeffLines, toReal).Some?
    ensures r.Some? ==> Some(r.value.unitAverages) == UnitValues(unitLines, toReal)
    ensures r.Some? ==> Some(r.value.averages) == ParsedAverages(reportLines, toReal)
    ensures r.Some? ==> Some(r.value.coefficients) == Coefficients(coeffLines, toReal)
    ensures r.Some? ==> r.value.reduced == r.value.averages
  {
    var ua := UnitValues(unitLines, toReal);
    var averages := ParsedAverages(reportLines, toReal);
    var coefficients := Coefficients(coeffLines, toReal);
    var reduced := ParsedAverages(reportLines, toReal);
    if ua.None? || averages.None? || coefficients.None? || reduced.None? then None
    else Some(RatioInputs(ua.value, averages.value, coefficients.value, reduced.value))
  }

  // ---------------------------------------------------------------------
  // The payoff lists

  /** One visited agent as the lists record it. */
  datatype Entry = Entry(key: string, strategy: string, payoff: real)

  /** profileStrategyPayoffs: profile key to strategy to payoffs in visiting order. */
  type PayoffLists = map<string, map<string, seq<real>>>

  /** The map put for a profile key before its sample's agent loop, when missing. */
  function Seeded(m: PayoffLists, key: string): (r: PayoffLists)
    ensures key in r && r.Keys == m.Keys + {key}
    ensures forall k :: k in m ==> r[k] == m[k]
    ensures key !in m ==> r[key] == map[]
  {
    if key in m then m else m[key := map[]]
  }

  /** One payoff added to its profile's strategy list, which is created when missing. */
  function Append(m: PayoffLists, e: Entry): PayoffLists {
    var inner := if e.key in m then m[e.key] else map[];
    var list := if e.strategy in inner then inner[e.strategy] else [];
    m[e.key := inner[e.strategy := list + [e.payoff]]]
  }

  function AppendAll(m: PayoffLists, es: seq<Entry>): PayoffLists {
    if |es| == 0 then m else Append(AppendAll(m, es[..|es| - 1]), es[|es| - 1])
  }

  /** The payoffs of the entries with the given profile and strategy, in order. */
  function Filter(es: seq<Entry>, key: string, strategy: string): (r: seq<real>)
    ensures |r| <= |es|
  {
    if |es| == 0 then []
    else
      var e := es[|es| - 1];
      Filter(es[..|es| - 1], key, strategy) + (if e.key == key && e.strategy == strategy then [e.payoff] else [])
  }

  /**
   * The lists hold exactly the entries: a list exists for every entry's
   * profile and strategy, each list holds the payoffs of the entries with
   * its profile and strategy in order, and no list is empty.
   */
  ghost predicate Filtered(m: PayoffLists, es: seq<Entry>) {
    (forall j :: 0 <= j < |es| ==> es[j].key in m && es[j].strategy in m[es[j].key])
    && (forall k, st :: k in m && st in m[k] ==> m[k][st] == Filter(es, k, st) && |m[k][st]| > 0)
  }

  lemma SeededFiltered(m: PayoffLists, es: seq<Entry>, key: string)
    requires Filtered(m, es)
    ensures Filtered(Seeded(m, key), es)
  {
  }

  lemma AppendFiltered(m: PayoffLists, es: seq<Entry>, e: Entry)
    requires Filtered(m, es)
    ensures Filtered(Append(m, e), es + [e])
  {
    var es', m' := es + [e], Append(m, e);
    assert es'[..|es|] == es;
    forall j | 0 <= j < |es'|
      ensures es'[j].key in m' && es'[j].strategy in m'[es'[j].key]
    {
      if j < |es| {
        assert es'[j] == es[j];
      }
    }
    forall k, st | k in m' && st in m'[k]
      ensures m'[k][st] == Filter(es', k, st) && |m'[k][st]| > 0
    {
      assert Filter(es', k, st) == Filter(es, k, st) + (if e.key == k && e.strategy == st then [e.payoff] else []);
      if k == e.key && st == e.strategy {
        if k in m && st in m[k] {
          assert m'[k][st] == m[k][st] + [e.payoff];
        } else {
          assert m'[k][st] == [e.payoff];
          assert forall j :: 0 <= j < |es| ==> !(es[j].key == k && es[j].strategy == st);
          NoneFiltered(es, k, st);
        }
      } else {
        assert k in m && st in m[k];
      }
    }
  }

  lemma {:induction false} NoneFiltered(es: seq<Entry>, key: string, strategy: string)
    requires forall j :: 0 <= j < |es| ==> !(es[j].key == key && es[j].strategy == strategy)
    ensures Filter(es, key, strategy) == []
  {
    if |es| > 0 {
      var init := es[..|es| - 1];
      assert forall j :: 0 <= j < |init| ==> init[j] == es[j];
      NoneFiltered(init, key, strategy);
    }
  }

  lemma {:induction false} AppendAllFiltered(m: PayoffLists, es: seq<Entry>, fs: seq<Entry>)
    requires Filtered(m, es)
    ensures Filtered(AppendAll(m, fs), es + fs)
    decreases |fs|
  {
    if |fs| == 0 {
      assert es + fs == es;
    } else {
      var init, last := fs[..|fs| - 1], fs[|fs| - 1];
      assert AppendAll(m, fs) == Append(AppendAll(m, init), last);
      assert es + fs == (es + init) + [last];
      AppendAllFiltered(m, es, init);
      AppendFiltered(AppendAll(m, init), es + init, last);
    }
  }

  /** The (profile, strategy) pair of every entry, in order. */
  function Pairs(es: seq<Entry>): (r: seq<(string, string)>)
    ensures |r| == |es|
  {
    if |es| == 0 then [] else Pairs(es[..|es| - 1]) + [(es[|es| - 1].key, es[|es| - 1].strategy)]
  }

  /** A list holds one payoff per entry of its profile and strategy. */
  lemma {:induction false} FilterCount(es: seq<Entry>, key: string, strategy: string)
    ensures |Filter(es, key, strategy)| == multiset(Pairs(es))[(key, strategy)]
  {
    if |es| > 0 {
      FilterCount(es[..|es| - 1], key, strategy);
    }
  }

  /** The entries of one sample's visited agents. */
  function Tagged(s: Sample, obs: seq<Observation>): (es: seq<Entry>)
    requires forall j :: 0 <= j < |obs| ==> obs[j].index < |s.agents|
    ensures |es| == |obs|
    ensures forall j :: 0 <= j < |obs| ==>
      es[j] == Entry(SampleKey(Names(s.agents)), s.agents[obs[j].index].strategy, obs[j].payoff)
  {
    seq(|obs|, j requires 0 <= j < |obs| => Entry(SampleKey(Names(s.agents)), s.agents[obs[j].index].strategy, obs[j].payoff))
  }

  /** The walk visits agents of the sample only. */
  lemma SampleIndexed(s: Sample, averages: map<string, seq<real>>)
    requires WellFormed(s) && SampleObservations(s, averages).Some?
    ensures forall j :: 0 <= j < |SampleObservations(s, averages).value| ==>
      SampleObservations(s, averages).value[j].index < |s.agents|
  {
    var vs := Visits(|s.agents|);
    assert forall j :: 0 <= j < |vs| ==> Some(SampleObservations(s, averages).value[j]) == Observe(s, averages, vs[j]);
  }

  /** The entries of all samples, in visiting order. */
  function Entries(samples: seq<Sample>, averages: map<string, seq<real>>): (es: seq<Entry>)
    requires AllWellFormed(samples) && Observations(samples, averages).Some?
    ensures |es| == |Observations(samples, averages).value|
    ensures forall j :: 0 <= j < |es| ==> es[j].payoff == Observations(samples, averages).value[j].payoff
  {
    if |samples| == 0 then []
    else
      var s := samples[|samples| - 1];
      var init := samples[..|samples| - 1];
      assert forall i :: 0 <= i < |init| ==> init[i] == samples[i];
      SampleIndexed(s, averages);
      var es := Entries(init, averages) + Tagged(s, SampleObservations(s, averages).value);
      assert Observations(samples, averages).value == Observations(init, averages).value + SampleObservations(s, averages).value;
      es
  }

  /** profileStrategyPayoffs after the walk over the samples. */
  function PayoffListsOf(samples: seq<Sample>, averages: map<string, seq<real>>): PayoffLists
    requires AllWellFormed(samples) && Observations(samples, averages).Some?
  {
    if |samples| == 0 then map[]
    else
      var s := samples[|samples| - 1];
      var init := samples[..|samples| - 1];
      assert forall i :: 0 <= i < |init| ==> init[i] == samples[i];
      SampleIndexed(s, averages);
      AppendAll(Seeded(PayoffListsOf(init, averages), SampleKey(Names(s.agents))),
                Tagged(s, SampleObservations(s, averages).value))
  }

  /**
   * Every visited agent's payoff is in exactly one list, the one of its
   * profile and strategy, in visiting order; no list is empty.
   */
  lemma {:induction false} ListsPartitionPayoffs(samples: seq<Sample>, averages: map<string, seq<real>>)
    requires AllWellFormed(samples) && Observations(samples, averages).Some?
    ensures Filtered(PayoffListsOf(samples, averages), Entries(samples, averages))
  {
    if |samples| > 0 {
      var s := samples[|samples| - 1];
      var init := samples[..|samples| - 1];
      assert forall i :: 0 <= i < |init| ==> init[i] == samples[i];
      SampleIndexed(s, averages);
      ListsPartitionPayoffs(init, averages);
      var key := SampleKey(Names(s.agents));
      SeededFiltered(PayoffListsOf(init, averages), Entries(init, averages), key);
      AppendAllFiltered(Seeded(PayoffListsOf(init, averages), key), Entries(init, averages),
                        Tagged(s, SampleObservations(s, averages).value));
    }
  }

  /**
   * The list lengths are the multiplicities of the visited (profile,
   * strategy) pairs, which number K: together the lists hold K payoffs.
   */
  lemma ListLengthsTotalK(samples: seq<Sample>, averages: map<string, seq<real>>)
    requires AllWellFormed(samples) && Observations(samples, averages).Some?
    ensures var lists, es := PayoffListsOf(samples, averages), Entries(samples, averages);
      |multiset(Pairs(es))| == |Observations(samples, averages).value|
      && (forall k, st :: k in lists && st in lists[k] ==> |lists[k][st]| == multiset(Pairs(es))[(k, st)])
      && (forall k, st :: (k, st) in multiset(Pairs(es)) ==> k in lists && st in lists[k])
  {
    var lists, es := PayoffListsOf(samples, averages), Entries(samples, averages);
    ListsPartitionPayoffs(samples, averages);
    forall k, st | k in lists && st in lists[k]
      ensures |lists[k][st]| == multiset(Pairs(es))[(k, st)]
    {
      FilterCount(es, k, st);
    }
    forall k, st | (k, st) in multiset(Pairs(es))
      ensures k in lists && st in lists[k]
    {
      FilterCount(es, k, st);
      var j := PairIndex(es, k, st);
      assert es[j].key in lists && es[j].strategy in lists[es[j].key];
    }
  }

  /** A pair that occurs comes from some entry. */
  lemma {:induction false} PairIndex(es: seq<Entry>, key: string, strategy: string) returns (j: nat)
    requires (key, strategy) in multiset(Pairs(es))
    ensures j < |es| && es[j].key == key && es[j].strategy == strategy
  {
    var init := es[..|es| - 1];
    if (key, strategy) == (es[|es| - 1].key, es[|es| - 1].strategy) {
      j := |es| - 1;
    } else {
      assert (key, strategy) in multiset(Pairs(init));
      j := PairIndex(init, key, strategy);
      assert es[j] == init[j];
    }
  }

  // ---------------------------------------------------------------------
  // The variance of all payoffs

  /** allPayoffs: every visited agent's payoff in visiting order. */
  function Payoffs(obs: seq<Observation>): (ps: seq<real>)
    ensures |ps| == |obs| && forall j :: 0 <= j < |obs| ==> ps[j] == obs[j].payoff
  {
    seq(|obs|, j requires 0 <= j < |obs| => obs[j].payoff)
  }

  function Total(xs: seq<real>): real {
    if |xs| == 0 then 0.0 else Total(xs[..|xs| - 1]) + xs[|xs| - 1]
  }

  function SquaredDeviations(xs: seq<real>, mean: real): (r: real)
    ensures r >= 0.0
  {
    if |xs| == 0 then 0.0
    else
      var d := xs[|xs| - 1] - mean;
      SquaredDeviations(xs[..|xs| - 1], mean) + d * d
  }

  /**
   * The bias-corrected sample variance of Variance.evaluate: NaN (None) for
   * no values, 0 for one, and the squared deviations from the mean over
   * n - 1 otherwise.
   */
  function PayoffVariance(xs: seq<real>): (r: Option<real>)
    ensures r.Some? <==> |xs| > 0
    ensures r.Some? ==> r.value >= 0.0
  {
    if |xs| == 0 then None
    else if |xs| == 1 then Some(0.0)
    else Some(SquaredDeviations(xs, Total(xs) / (|xs| as real)) / ((|xs| - 1) as real))
  }

  lemma {:induction false} ConstantTotal(xs: seq<real>, x: real)
    requires forall j :: 0 <= j < |xs| ==> xs[j] == x
    ensures Total(xs) == (|xs| as real) * x
  {
    if |xs| > 0 {
      ConstantTotal(xs[..|xs| - 1], x);
    }
  }

  lemma {:induction false} NoDeviations(xs: seq<real>, x: real)
    requires forall j :: 0 <= j < |xs| ==> xs[j] == x
    ensures SquaredDeviations(xs, x) == 0.0
  {
    if |xs| > 0 {
      NoDeviations(xs[..|xs| - 1], x);
    }
  }

  /** Equal payoffs have variance zero, which makes the ratio undefined. */
  lemma ConstantPayoffsVariance(xs: seq<real>)
    requires |xs| > 0 && forall j :: 0 <= j < |xs| ==> xs[j] == xs[0]
    ensures PayoffVariance(xs) == Some(0.0)
  {
    if |xs| > 1 {
      ConstantTotal(xs, xs[0]);
      assert Total(xs) / (|xs| as real) == xs[0];
      NoDeviations(xs, xs[0]);
    }
  }

  // ---------------------------------------------------------------------
  // The ratio

  /** sigma' (Sigma^-1 sigma); None when the dimensions do not match. */
  function Numerator(sigma: seq<real>, solution: seq<real>): (r: Option<real>)
    ensures r.Some? <==> |sigma| == |solution|
  {
    if |sigma| != |solution| then None else Some(Dot(sigma, solution))
  }

  function Dot(a: seq<real>, b: seq<real>): real
    requires |a| == |b|
  {
    if |a| == 0 then 0.0 else Dot(a[..|a| - 1], b[..|b| - 1]) + a[|a| - 1] * b[|b| - 1]
  }

  /** With only its first slot non-zero, sigma meets the solution in that slot alone. */
  lemma {:induction false} DotFirstSlot(a: seq<real>, b: seq<real>)
    requires |a| == |b| && |a| > 0 && forall u :: 0 < u < |a| ==> a[u] == 0.0
    ensures Dot(a, b) == Dot(a[..1], b[..1])
  {
    if |a| > 1 {
      var a', b' := a[..|a| - 1], b[..|b| - 1];
      assert forall u :: 0 < u < |a'| ==> a'[u] == a[u];
      DotFirstSlot(a', b');
      assert a'[..1] == a[..1] && b'[..1] == b[..1];
      assert a[|a| - 1] == 0.0;
    } else {
      assert a[..1] == a && b[..1] == b;
    }
  }

  /**
   * R = ((K - 2) / (K - UNITS - 2)) * (1 - numerator / variance); None
   * where the double arithmetic divides by zero.
   */
  function Ratio(K: int, numerator: real, variance: real): (r: Option<real>)
    ensures r.Some? <==> K != UNITS + 2 && variance != 0.0
    ensures r.Some? ==> r.value * ((K - UNITS - 2) as real) * variance == ((K - 2) as real) * (variance - numerator)
  {
    if K == UNITS + 2 || variance == 0.0 then None
    else
      var scale, reduction := ((K - 2) as real) / ((K - UNITS - 2) as real), 1.0 - numerator / variance;
      assert scale * ((K - UNITS - 2) as real) == (K - 2) as real;
      assert reduction * variance == variance - numerator;
      Some(scale * reduction)
  }

  /** A zero numerator leaves the small-sample factor alone; numerator == variance gives zero. */
  lemma RatioExtremes(K: int, numerator: real, variance: real)
    requires K != UNITS + 2 && variance != 0.0
    ensures numerator == 0.0 ==> Ratio(K, numerator, variance) == Some(((K - 2) as real) / ((K - UNITS - 2) as real))
    ensures numerator == variance ==> Ratio(K, numerator, variance) == Some(0.0)
  {
    if numerator == 0.0 {
      assert numerator / variance == 0.0;
      assert 1.0 - numerator / variance == 1.0;
    }
    if numerator == variance {
      assert numerator / variance == 1.0;
      assert 1.0 - numerator / variance == 0.0;
    }
  }

  /** The number the program prints, or None where it ends with an exception or prints NaN or Infinity. */
  function RatioOutput(samples: seq<Sample>, unitLines: seq<string>, reportLines: seq<string>, coeffLines: seq<string>,
                       toReal: string -> Option<real>, solve: (seq<seq<real>>, seq<real>) -> Option<seq<real>>): Option<real>
    requires AllWellFormed(samples)
  {
    var inputs := ReadRatioInputs(unitLines, reportLines, coeffLines, toReal);
    if inputs.None? then None
    else
      var obs := Observations(samples, inputs.value.averages);
      if obs.None? then None
      else
        var e := Estimate(obs.value, inputs.value.unitAverages);
        if e.None? then None
        else
          var c := solve(e.value.covariance, e.value.variance);
          if c.None? then None
          else
            var num := Numerator(e.value.variance, c.value);
            var variance := PayoffVariance(Payoffs(obs.value));
            if num.None? || variance.None? then None
            else Ratio(|obs.value|, num.value, variance.value)
  }

  /**
   * Because of the variance loop, the numerator only uses the first slot
   * of the solution.
   */
  lemma NumeratorFirstSlot(obs: seq<Observation>, ua: seq<real>, c: seq<real>)
    requires AllObserved(obs) && |ua| == UNITS && Estimate(obs, ua).Some? && |c| == UNITS
    ensures Numerator(Estimate(obs, ua).value.variance, c) == Numerator(Estimate(obs, ua).value.variance[..1], c[..1])
  {
    var v := Estimate(obs, ua).value.variance;
    VarianceTail(obs, ua);
    DotFirstSlot(v, c);
  }

  lemma VarianceTail(obs: seq<Observation>, ua: seq<real>)
    requires AllObserved(obs) && |ua| == UNITS && Estimate(obs, ua).Some?
    ensures forall u :: 0 < u < UNITS ==> Estimate(obs, ua).value.variance[u] == 0.0
  {
    forall u | 0 < u < UNITS
      ensures Estimate(obs, ua).value.variance[u] == 0.0
    {
      VarianceShape(obs, ua, u);
    }
  }

  // ---------------------------------------------------------------------
  // The program

  /** What the loop of one sample has recorded after seeing the given agents. */
  ghost predicate Recorded(s: Sample, lists: PayoffLists, payoffs: seq<real>, seen: seq<Observation>,
                           lists': PayoffLists, payoffs': seq<real>)
  {
    SampleIndexedBy(s, seen)
    && var key := SampleKey(Names(s.agents));
    key in lists' && lists' == AppendAll(Seeded(lists, key), Tagged(s, seen)) && payoffs' == payoffs + Payoffs(seen)
  }

  ghost predicate SampleIndexedBy(s: Sample, obs: seq<Observation>) {
    forall j :: 0 <= j < |obs| ==> obs[j].index < |s.agents|
  }

  /**
   * One turn of the agent loop: the CalculateCoefficients turn, and the
   * agent's payoff added to its strategy's list (created when missing)
   * and to allPayoffs.
   */
  method RatioStep(s: Sample, book: PriceBook, strategies: seq<string>, key: string, averages: map<string, seq<real>>,
                   ua: seq<real>, Sigma: array2<real>, sigma: array<real>, i: nat,
                   lists: PayoffLists, payoffs: seq<real>, current: PayoffLists, all: seq<real>,
                   ghost prior: seq<Observation>, ghost seen: seq<Observation>)
    returns (o: Option<Observation>, next: nat, current': PayoffLists, all': seq<real>)
    requires WellFormed(s) && i < |s.agents| && (i == 0 || UNITS < i) && |ua| == UNITS
    requires book == Bucketed(s.repetitions) && strategies == SortedStrategies(Names(s.agents)) && key == SampleKey(Names(s.agents))
    requires Sigma.Length0 == UNITS && Sigma.Length1 == UNITS && sigma.Length == UNITS
    requires Saw(s, averages, seen, i) && AllObserved(seen) && AllObserved(prior + seen)
    requires Holds(Sigma, sigma, prior + seen, ua)
    requires Recorded(s, lists, payoffs, seen, current, all)
    modifies Sigma, sigma
    ensures o.None? ==> SampleObservations(s, averages).None?
    ensures o.Some? ==> next == (if i < UNITS then UNITS else i) + 1
    ensures o.Some? ==> Saw(s, averages, seen + [o.value], if next < |s.agents| then next else |s.agents|)
    ensures o.Some? ==> AllObserved(seen + [o.value]) && AllObserved(prior + (seen + [o.value]))
    ensures o.Some? ==> Holds(Sigma, sigma, prior + (seen + [o.value]), ua)
    ensures o.Some? ==> Recorded(s, lists, payoffs, seen + [o.value], current', all')
  {
    current', all' := current, all;
    o, next := AgentStep(s, book, strategies, key, averages, ua, Sigma, sigma, i, prior, seen);
    if o.None? {
      return;
    }
    current', all' := Record(s, key, s.agents[i].strategy, o.value, lists, payoffs, current, all, seen);
  }

  /** profileStrategyPayoffs.get(profileID).get(strategy).add(payoff) and allPayoffs.add(payoff). */
  method Record(s: Sample, key: string, strategy: string, o: Observation, lists: PayoffLists, payoffs: seq<real>,
                current: PayoffLists, all: seq<real>, ghost seen: seq<Observation>)
    returns (current': PayoffLists, all': seq<real>)
    requires key == SampleKey(Names(s.agents)) && o.index < |s.agents| && strategy == s.agents[o.index].strategy
    requires Recorded(s, lists, payoffs, seen, current, all)
    ensures Recorded(s, lists, payoffs, seen + [o], current', all')
  {
    var inner := current[key];
    if strategy !in inner {
      inner := inner[strategy := []];
    }
    AppendInPlace(current, Entry(key, strategy, o.payoff));
    current' := current[key := inner[strategy := inner[strategy] + [o.payoff]]];
    all' := all + [o.payoff];
    RecordStep(s, lists, key, seen, o, current);
    PayoffsStep(seen, o);
  }

  /** The code's two-step update of profileStrategyPayoffs is Append. */
  lemma AppendInPlace(m: PayoffLists, e: Entry)
    requires e.key in m
    ensures var inner := if e.strategy in m[e.key] then m[e.key] else m[e.key][e.strategy := []];
      m[e.key := inner[e.strategy := inner[e.strategy] + [e.payoff]]] == Append(m, e)
  {
    var inner := if e.strategy in m[e.key] then m[e.key] else m[e.key][e.strategy := []];
    var list := if e.strategy in m[e.key] then m[e.key][e.strategy] else [];
    assert inner[e.strategy := inner[e.strategy] + [e.payoff]] == m[e.key][e.strategy := list + [e.payoff]];
  }

  /** Seeing one more agent appends its entry. */
  lemma RecordStep(s: Sample, lists: PayoffLists, key: string, seen: seq<Observation>, o: Observation, m: PayoffLists)
    requires SampleIndexedBy(s, seen) && o.index < |s.agents| && key == SampleKey(Names(s.agents))
    requires m == AppendAll(Seeded(lists, key), Tagged(s, seen))
    ensures SampleIndexedBy(s, seen + [o])
    ensures AppendAll(Seeded(lists, key), Tagged(s, seen + [o])) == Append(m, Entry(key, s.agents[o.index].strategy, o.payoff))
  {
    TaggedAppend(s, seen, o);
    AppendAllSnoc(Seeded(lists, key), Tagged(s, seen), Entry(key, s.agents[o.index].strategy, o.payoff));
  }

  lemma AppendAllSnoc(m: PayoffLists, es: seq<Entry>, e: Entry)
    ensures AppendAll(m, es + [e]) == Append(AppendAll(m, es), e)
  {
    assert (es + [e])[..|es|] == es;
  }

  lemma TaggedAppend(s: Sample, seen: seq<Observation>, o: Observation)
    requires SampleIndexedBy(s, seen) && o.index < |s.agents|
    ensures SampleIndexedBy(s, seen + [o])
    ensures Tagged(s, seen + [o]) == Tagged(s, seen) + [Entry(SampleKey(Names(s.agents)), s.agents[o.index].strategy, o.payoff)]
  {
  }

  /**
   * The agent loop of one sample, as in CalculateCoefficients, with each
   * visited agent's payoff recorded; the profile's map is put first when
   * missing.
   */
  method RatioSample(s: Sample, averages: map<string, seq<real>>, ua: seq<real>, Sigma: array2<real>, sigma: array<real>,
                     lists: PayoffLists, payoffs: seq<real>, ghost prior: seq<Observation>)
    returns (obs: Option<seq<Observation>>, lists': PayoffLists, payoffs': seq<real>)
    requires WellFormed(s) && |ua| == UNITS && AllObserved(prior)
    requires Sigma.Length0 == UNITS && Sigma.Length1 == UNITS && sigma.Length == UNITS
    requires Holds(Sigma, sigma, prior, ua)
    modifies Sigma, sigma
    ensures obs == SampleObservations(s, averages)
    ensures obs.Some? ==> AllObserved(prior + obs.value) && Holds(Sigma, sigma, prior + obs.value, ua)
    ensures obs.Some? ==> Recorded(s, lists, payoffs, obs.value, lists', payoffs')
  {
    var book := BucketTransactions(s.repetitions);
    var strategies, key := IdentifyProfile(Names(s.agents));
    lists' := lists;
    if key !in lists' {
      lists' := lists'[key := map[]];
    }
    payoffs' := payoffs;
    var seen: seq<Observation> := [];
    assert prior + seen == prior;
    assert payoffs' == payoffs + Payoffs(seen);
    var i := 0;
    while i < |s.agents|
      invariant i == 0 || UNITS < i
      invariant Saw(s, averages, seen, if i < |s.agents| then i else |s.agents|)
      invariant AllObserved(seen) && AllObserved(prior + seen)
      invariant Holds(Sigma, sigma, prior + seen, ua)
      invariant Recorded(s, lists, payoffs, seen, lists', payoffs')
      decreases |s.agents| - i
    {
      var o, next;
      o, next, lists', payoffs' := RatioStep(s, book, strategies, key, averages, ua, Sigma, sigma, i,
                                             lists, payoffs, lists', payoffs', prior, seen);
      if o.None? {
        return None, lists', payoffs';
      }
      seen := seen + [o.value];
      i := next;
    }
    SawAll(s, averages, seen);
    obs := Some(seen);
  }

  lemma PayoffsStep(seen: seq<Observation>, o: Observation)
    ensures Payoffs(seen + [o]) == Payoffs(seen) + [o.payoff]
  {
  }

  /** The outer loop over the samples; K is the number of visited agents. */
  method WalkRatioSamples(samples: seq<Sample>, averages: map<string, seq<real>>, ua: seq<real>,
                          Sigma: array2<real>, sigma: array<real>)
    returns (K: Option<nat>, lists: PayoffLists, payoffs: seq<real>)
    requires AllWellFormed(samples) && |ua| == UNITS
    requires Sigma.Length0 == UNITS && Sigma.Length1 == UNITS && sigma.Length == UNITS
    requires Holds(Sigma, sigma, [], ua)
    modifies Sigma, sigma
    ensures K.Some? <==> Observations(samples, averages).Some?
    ensures K.Some? ==> K.value == |Observations(samples, averages).value| == |payoffs|
    ensures K.Some? ==> Holds(Sigma, sigma, Observations(samples, averages).value, ua)
    ensures K.Some? ==> payoffs == Payoffs(Observations(samples, averages).value)
    ensures K.Some? ==> lists == PayoffListsOf(samples, averages)
  {
    var k := 0;
    lists, payoffs := map[], [];
    ghost var all: seq<Observation> := [];
    for i := 0 to |samples|
      invariant Observations(samples[..i], averages) == Some(all)
      invariant k == |all| && payoffs == Payoffs(all)
      invariant Holds(Sigma, sigma, all, ua)
      invariant lists == PayoffListsOf(samples[..i], averages)
    {
      var obs, lists', payoffs' := WalkSample(samples, averages, ua, Sigma, sigma, i, lists, payoffs, all);
      if obs.None? {
        return None, lists', payoffs';
      }
      lists, payoffs := lists', payoffs';
      all := all + obs.value;
      k := k + |obs.value|;
    }
    assert samples[..|samples|] == samples;
    return Some(k), lists, payoffs;
  }

  /** One pass of the outer loop: the sample's walk, and what it adds to the running results. */
  method WalkSample(samples: seq<Sample>, averages: map<string, seq<real>>, ua: seq<real>,
                    Sigma: array2<real>, sigma: array<real>, i: nat, lists: PayoffLists, payoffs: seq<real>,
                    ghost all: seq<Observation>)
    returns (obs: Option<seq<Observation>>, lists': PayoffLists, payoffs': seq<real>)
    requires AllWellFormed(samples) && |ua| == UNITS && i < |samples|
    requires Sigma.Length0 == UNITS && Sigma.Length1 == UNITS && sigma.Length == UNITS
    requires Observations(samples[..i], averages) == Some(all)
    requires payoffs == Payoffs(all) && lists == PayoffListsOf(samples[..i], averages)
    requires Holds(Sigma, sigma, all, ua)
    modifies Sigma, sigma
    ensures obs.None? ==> Observations(samples, averages).None?
    ensures obs.Some? ==> Observations(samples[..i + 1], averages) == Some(all + obs.value)
    ensures obs.Some? ==> payoffs' == Payoffs(all + obs.value) && lists' == PayoffListsOf(samples[..i + 1], averages)
    ensures obs.Some? ==> Holds(Sigma, sigma, all + obs.value, ua)
  {
    obs, lists', payoffs' := RatioSample(samples[i], averages, ua, Sigma, sigma, lists, payoffs, all);
    if obs.None? {
      SampleMissing(samples, averages, i);
    } else {
      WalkStep(samples, averages, i, all, obs.value, lists, payoffs, lists', payoffs');
    }
  }

  /** One more sample extends the observations, the lists and allPayoffs. */
  lemma WalkStep(samples: seq<Sample>, averages: map<string, seq<real>>, i: nat, all: seq<Observation>,
                 obs: seq<Observation>, lists: PayoffLists, payoffs: seq<real>, lists': PayoffLists, payoffs': seq<real>)
    requires AllWellFormed(samples) && i < |samples|
    requires Observations(samples[..i], averages) == Some(all) && SampleObservations(samples[i], averages) == Some(obs)
    requires lists == PayoffListsOf(samples[..i], averages) && payoffs == Payoffs(all)
    requires Recorded(samples[i], lists, payoffs, obs, lists', payoffs')
    ensures Observations(samples[..i + 1], averages) == Some(all + obs)
    ensures lists' == PayoffListsOf(samples[..i + 1], averages) && payoffs' == Payoffs(all + obs)
  {
    ObservationsStep(samples, averages, i);
    ListsStep(samples, averages, i);
    PayoffsAppend(all, obs);
  }

  lemma ObservationsStep(samples: seq<Sample>, averages: map<string, seq<real>>, i: nat)
    requires AllWellFormed(samples) && i < |samples|
    ensures Observations(samples[..i], averages).Some? && SampleObservations(samples[i], averages).Some? ==>
      Observations(samples[..i + 1], averages)
      == Some(Observations(samples[..i], averages).value + SampleObservations(samples[i], averages).value)
  {
    var prefix := samples[..i + 1];
    assert prefix[..i] == samples[..i] && prefix[i] == samples[i];
  }

  lemma ListsStep(samples: seq<Sample>, averages: map<string, seq<real>>, i: nat)
    requires AllWellFormed(samples) && i < |samples|
    requires Observations(samples[..i], averages).Some? && SampleObservations(samples[i], averages).Some?
    ensures Observations(samples[..i + 1], averages).Some?
    ensures (SampleIndexed(samples[i], averages);
             PayoffListsOf(samples[..i + 1], averages)
             == AppendAll(Seeded(PayoffListsOf(samples[..i], averages), SampleKey(Names(samples[i].agents))),
                          Tagged(samples[i], SampleObservations(samples[i], averages).value)))
  {
    var prefix := samples[..i + 1];
    assert prefix[..i] == samples[..i] && prefix[i] == samples[i];
    ObservationsStep(samples, averages, i);
  }

  lemma PayoffsAppend(a: seq<Observation>, b: seq<Observation>)
    ensures Payoffs(a + b) == Payoffs(a) + Payoffs(b)
  {
  }

  /** values[i] = allPayoffs.get(i). */
  method PayoffArray(payoffs: seq<real>) returns (values: array<real>)
    ensures fresh(values) && values[..] == payoffs
  {
    values := new real[|payoffs|];
    for i := 0 to values.Length
      invariant values[..i] == payoffs[..i]
    {
      values[i] := payoffs[i];
    }
  }

  /** The four files read in turn, stopping at the first that cannot be read. */
  method ReadInputs(unitLines: seq<string>, reportLines: seq<string>, coeffLines: seq<string>,
                    toReal: string -> Option<real>)
    returns (inputs: Option<RatioInputs>)
    ensures inputs == ReadRatioInputs(unitLines, reportLines, coeffLines, toReal)
  {
    var ua := ReadUnitValues(unitLines, toReal);
    if ua.None? {
      return None;
    }
    var averages := ReadAverages(reportLines, toReal);
    if averages.None? {
      return None;
    }
    var coefficients := ReadCoefficients(coeffLines, toReal);
    if coefficients.None? {
      return None;
    }
    var reduced := ReadAverages(reportLines, toReal);
    if reduced.None? {
      return None;
    }
    inputs := Some(RatioInputs(ua.value, averages.value, coefficients.value, reduced.value));
  }

  /** The whole program: its printed ratio, or None. */
  method CalculateVarianceReductionRatio(samples: seq<Sample>, unitLines: seq<string>, reportLines: seq<string>,
                                         coeffLines: seq<string>, toReal: string -> Option<real>,
                                         solve: (seq<seq<real>>, seq<real>) -> Option<seq<real>>)
    returns (ratio: Option<real>)
    requires AllWellFormed(samples)
    ensures ratio == RatioOutput(samples, unitLines, reportLines, coeffLines, toReal, solve)
  {
    var inputs := ReadInputs(unitLines, reportLines, coeffLines, toReal);
    if inputs.None? {
      return None;
    }
    var ua, averages := inputs.value.unitAverages, inputs.value.averages;
    var Sigma := new real[UNITS, UNITS]((_, _) => 0.0);
    var sigma := new real[UNITS](_ => 0.0);
    var K, lists, payoffs := WalkRatioSamples(samples, averages, ua, Sigma, sigma);
    if K.None? || K.value == 1 {
      return None;
    }
    var e := Averaged(Sigma, sigma, K.value, Observations(samples, averages).value, ua);
    var c := solve(e.covariance, e.variance);
    if c.None? {
      return None;
    }
    var num := Numerator(e.variance, c.value);
    var values := PayoffArray(payoffs);
    var variance := PayoffVariance(values[..]);
    if num.None? || variance.None? {
      return None;
    }
    ratio := Ratio(K.value, num.value, variance.value);
  }
}
