/**
 * CalculateAverageNormalizedUnitValue: the average normalised value of
 * every unit slot over all agents of all samples, written one slot per
 * line.  This is the unit-value file the coefficient and ratio programs
 * read back.
 *
 * An agent's values are read as doubles into ten slots (a slot without a
 * value stays 0, an eleventh value is an exception), the agent is a buyer
 * when slot 0 is above slot 9, and its normalised values go into the
 * per-slot sums.
 */
module NormalizedUnitValues {
  import opened Wrappers
  import opened JavaStrings
  import opened Market
  import opened Readers

  // ---------------------------------------------------------------------
  // One agent

  /** vi: the values in the first slots, 0 in the rest; None when there are more values than slots. */
  function Slots(values: seq<int>): (vi: Option<seq<int>>)
    ensures vi.Some? <==> |values| <= UNITS
    ensures vi.Some? ==> |vi.value| == UNITS
    ensures vi.Some? ==> forall j :: 0 <= j < |values| ==> vi.value[j] == values[j]
    ensures vi.Some? ==> forall j :: |values| <= j < UNITS ==> vi.value[j] == 0
  {
    if |values| > UNITS then None else Some(values + seq(UNITS - |values|, _ => 0))
  }

  /** vi[0] > vi[9]. */
  predicate SlotsBuyer(vi: seq<int>)
    requires |vi| == UNITS
  {
    vi[0] > vi[9]
  }

  /** The buyer test agrees with the other programs' first-against-last test when all ten values are there. */
  lemma SlotsBuyerFullAgent(values: seq<int>)
    requires |values| == UNITS
    ensures Slots(values).Some? && (SlotsBuyer(Slots(values).value) <==> IsBuyer(values))
  {
  }

  /** The normalised value of slot j of an agent. */
  function SlotValue(vi: seq<int>, j: nat): real
    requires |vi| == UNITS && j < UNITS
  {
    NormalizedValue(SlotsBuyer(vi), vi[j]) as real
  }

  // ---------------------------------------------------------------------
  // All agents

  /** Every agent of every sample, in file order. */
  function AgentsOf(samples: seq<Sample>): (agents: seq<Agent>)
    ensures |samples| > 0 ==> agents == AgentsOf(samples[..|samples| - 1]) + samples[|samples| - 1].agents
  {
    if |samples| == 0 then [] else AgentsOf(samples[..|samples| - 1]) + samples[|samples| - 1].agents
  }

  /** vSum after the given agents; None when one of them has more values than slots. */
  function SlotSums(agents: seq<Agent>): (r: Option<seq<real>>)
    ensures r.Some? <==> forall i :: 0 <= i < |agents| ==> |agents[i].values| <= UNITS
    ensures r.Some? ==> |r.value| == UNITS
  {
    if |agents| == 0 then Some(seq(UNITS, _ => 0.0))
    else
      var init := SlotSums(agents[..|agents| - 1]);
      var vi := Slots(agents[|agents| - 1].values);
      if init.None? || vi.None? then None
      else Some(Added(init.value, vi.value))
  }

  /** The sums once one more agent's normalised values are added. */
  function Added(sums: seq<real>, vi: seq<int>): (r: seq<real>)
    requires |sums| == UNITS && |vi| == UNITS
    ensures |r| == UNITS && forall j :: 0 <= j < UNITS ==> r[j] == sums[j] + SlotValue(vi, j)
  {
    seq(UNITS, j requires 0 <= j < UNITS => sums[j] + SlotValue(vi, j))
  }

  /** vAvg: the sums over the number of agents; None for no agents, where the doubles give NaN. */
  function AverageValues(samples: seq<Sample>): (r: Option<seq<real>>)
    ensures r.Some? <==> SlotSums(AgentsOf(samples)).Some? && |AgentsOf(samples)| > 0
    ensures r.Some? ==> |r.value| == UNITS
    ensures r.Some? ==> forall j :: 0 <= j < UNITS ==>
      r.value[j] == SlotSums(AgentsOf(samples)).value[j] / (|AgentsOf(samples)| as real)
  {
    var agents := AgentsOf(samples);
    var sums := SlotSums(agents);
    if sums.None? || |agents| == 0 then None
    else Some(seq(UNITS, j requires 0 <= j < UNITS => sums.value[j] / (|agents| as real)))
  }

  /** The output file: one line per slot. */
  function UnitValueLines(samples: seq<Sample>, show: real -> string): (lines: Option<seq<string>>)
    ensures lines.Some? <==> AverageValues(samples).Some?
    ensures lines.Some? ==> |lines.value| == UNITS
  {
    var avg := AverageValues(samples);
    if avg.None? then None else Some(seq(UNITS, u requires 0 <= u < UNITS => show(avg.value[u])))
  }

  // ---------------------------------------------------------------------
  // Properties

  /** Agents whose ten values lie in the value range. */
  ghost predicate InRange(agents: seq<Agent>) {
    forall i :: 0 <= i < |agents| ==>
      (|agents[i].values| == UNITS && forall j :: 0 <= j < UNITS ==> V_MIN <= agents[i].values[j] <= V_MAX)
  }

  /** Each sum of n in-range agents lies between 0 and n times the width of the range. */
  lemma {:induction false} SlotSumsBounded(agents: seq<Agent>)
    requires InRange(agents)
    ensures SlotSums(agents).Some?
    ensures forall j :: 0 <= j < UNITS ==>
      0.0 <= SlotSums(agents).value[j] <= (|agents| as real) * ((V_MAX - V_MIN) as real)
  {
    if |agents| > 0 {
      var init := agents[..|agents| - 1];
      assert forall i :: 0 <= i < |init| ==> init[i] == agents[i];
      SlotSumsBounded(init);
      var a := agents[|agents| - 1];
      var vi := Slots(a.values).value;
      assert vi == a.values;
      forall j | 0 <= j < UNITS
        ensures 0.0 <= SlotValue(vi, j) <= (V_MAX - V_MIN) as real
      {
        assert V_MIN <= vi[j] <= V_MAX;
      }
    }
  }

  /** With all values in [V_MIN, V_MAX], every average lies in [0, V_MAX - V_MIN]. */
  lemma AverageRange(samples: seq<Sample>)
    requires InRange(AgentsOf(samples)) && |AgentsOf(samples)| > 0
    ensures AverageValues(samples).Some?
    ensures forall j :: 0 <= j < UNITS ==> 0.0 <= AverageValues(samples).value[j] <= (V_MAX - V_MIN) as real
  {
    var agents := AgentsOf(samples);
    SlotSumsBounded(agents);
    var n := |agents| as real;
    forall j | 0 <= j < UNITS
      ensures 0.0 <= AverageValues(samples).value[j] <= (V_MAX - V_MIN) as real
    {
      QuotientBounded(SlotSums(agents).value[j], n, (V_MAX - V_MIN) as real);
    }
  }

  lemma QuotientBounded(sum: real, n: real, width: real)
    requires n > 0.0 && 0.0 <= sum <= n * width
    ensures 0.0 <= sum / n <= width
  {
  }

  /** The other programs read the file back as the averages themselves. */
  lemma UnitValueLinesReadBack(samples: seq<Sample>, show: real -> string, toReal: string -> Option<real>)
    requires ReadsTrimmedAsDoubles(show, toReal) && AverageValues(samples).Some?
    ensures UnitValues(UnitValueLines(samples, show).value, toReal) == AverageValues(samples)
  {
    ShownValuesReadBack(AverageValues(samples).value, show, toReal);
  }

  lemma ShownValuesReadBack(avg: seq<real>, show: real -> string, toReal: string -> Option<real>)
    requires ReadsTrimmedAsDoubles(show, toReal) && |avg| == UNITS
    ensures UnitValues(seq(UNITS, u requires 0 <= u < UNITS => show(avg[u])), toReal) == Some(avg)
  {
    var lines := seq(UNITS, u requires 0 <= u < UNITS => show(avg[u]));
    forall u | 0 <= u < UNITS
      ensures toReal(Trim(lines[u])) == Some(avg[u])
    {
      assert lines[u] == show(avg[u]);
      ReadBackValue(show, toReal, avg[u]);
    }
    var r := UnitValues(lines, toReal).value;
    assert forall u :: 0 <= u < UNITS ==> Some(r[u]) == toReal(Trim(lines[u]));
    assert r == avg;
  }

  // ---------------------------------------------------------------------
  // The program

  /** vi[j] = Double.valueOf(...) for every value element. */
  method ReadSlots(values: seq<int>) returns (vi: Option<seq<int>>)
    ensures vi == Slots(values)
  {
    var slots := new int[UNITS](_ => 0);
    for j := 0 to |values|
      invariant j <= UNITS && slots[..] == values[..j] + seq(UNITS - j, _ => 0)
    {
      if j >= UNITS {
        return None;
      }
      slots[j] := values[j];
      assert slots[..] == values[..j + 1] + seq(UNITS - (j + 1), _ => 0);
    }
    assert values[..|values|] == values;
    vi := Some(slots[..]);
  }

  /** The inner loop: vSum[j] += the normalised value of slot j. */
  method AddAgent(vSum: array<real>, vi: seq<int>)
    requires vSum.Length == UNITS && |vi| == UNITS
    modifies vSum
    ensures vSum[..] == Added(old(vSum[..]), vi)
  {
    var isBuyer := vi[0] > vi[9];
    for j := 0 to UNITS
      invariant forall k :: 0 <= k < j ==> vSum[k] == old(vSum[k]) + SlotValue(vi, k)
      invariant forall k :: j <= k < UNITS ==> vSum[k] == old(vSum[k])
    {
      var normalizedValue;
      if isBuyer {
        normalizedValue := vi[j] - V_MIN;
      } else {
        normalizedValue := V_MAX - vi[j];
      }
      vSum[j] := vSum[j] + normalizedValue as real;
    }
    assert vSum[..] == Added(old(vSum[..]), vi);
  }

  /** The agent loop of one sample; None when an agent has too many values. */
  method AddSample(vSum: array<real>, count: nat, agents: seq<Agent>, ghost seen: seq<Agent>) returns (count': Option<nat>)
    requires vSum.Length == UNITS && count == |seen| && SlotSums(seen) == Some(vSum[..])
    modifies vSum
    ensures count'.Some? <==> SlotSums(seen + agents).Some?
    ensures count'.Some? ==> count'.value == |seen + agents| && SlotSums(seen + agents) == Some(vSum[..])
  {
    var c := count;
    assert seen + agents[..0] == seen;
    for k := 0 to |agents|
      invariant c == |seen + agents[..k]| && SlotSums(seen + agents[..k]) == Some(vSum[..])
    {
      var vi := ReadSlots(agents[k].values);
      var next := seen + agents[..k + 1];
      assert next[..|next| - 1] == seen + agents[..k] && next[|next| - 1] == agents[k];
      if vi.None? {
        MissedAgent(seen, agents, k);
        return None;
      }
      AddAgent(vSum, vi.value);
      c := c + 1;
    }
    assert agents[..|agents|] == agents;
    return Some(c);
  }

  /** An agent with too many values makes every longer prefix fail. */
  lemma MissedAgent(seen: seq<Agent>, agents: seq<Agent>, k: nat)
    requires k < |agents| && |agents[k].values| > UNITS
    ensures SlotSums(seen + agents).None?
  {
    assert (seen + agents)[|seen| + k] == agents[k];
  }

  /** vAvg[j] = vSum[j] / count. */
  method Average(vSum: array<real>, count: nat) returns (vAvg: array<real>)
    requires vSum.Length == UNITS && count > 0
    ensures fresh(vAvg) && vAvg.Length == UNITS
    ensures forall j :: 0 <= j < UNITS ==> vAvg[j] == vSum[j] / (count as real)
  {
    vAvg := new real[UNITS];
    for j := 0 to UNITS
      invariant forall k :: 0 <= k < j ==> vAvg[k] == vSum[k] / (count as real)
    {
      vAvg[j] := vSum[j] / (count as real);
    }
  }

  /** sb.append(vAvg[u]).append("\n") for every slot, as lines. */
  method WriteLines(vAvg: array<real>, show: real -> string) returns (lines: seq<string>)
    requires vAvg.Length == UNITS
    ensures |lines| == UNITS && forall u :: 0 <= u < UNITS ==> lines[u] == show(vAvg[u])
  {
    lines := [];
    for u := 0 to UNITS
      invariant |lines| == u && forall k :: 0 <= k < u ==> lines[k] == show(vAvg[k])
    {
      lines := lines + [show(vAvg[u])];
    }
  }

  /** The whole program: the output file's lines, or None. */
  method CalculateAverageNormalizedUnitValue(samples: seq<Sample>, show: real -> string)
    returns (out: Option<seq<string>>)
    ensures out == UnitValueLines(samples, show)
  {
    var vSum := new real[UNITS](_ => 0.0);
    var count := 0;
    assert vSum[..] == seq(UNITS, _ => 0.0);
    for i := 0 to |samples|
      invariant count == |AgentsOf(samples[..i])| && SlotSums(AgentsOf(samples[..i])) == Some(vSum[..])
    {
      assert samples[..i + 1][..i] == samples[..i];
      var c := AddSample(vSum, count, samples[i].agents, AgentsOf(samples[..i]));
      if c.None? {
        SlotSumsPrefix(samples, i + 1);
        return None;
      }
      count := c.value;
    }
    assert samples[..|samples|] == samples;
    if count == 0 {
      return None;
    }
    var vAvg := Average(vSum, count);
    assert vAvg[..] == AverageValues(samples).value;
    var lines := WriteLines(vAvg, show);
    out := Some(lines);
    assert lines == UnitValueLines(samples, show).value;
  }

  /** A failure among the first samples' agents is a failure of all of them. */
  lemma {:induction false} SlotSumsPrefix(samples: seq<Sample>, i: nat)
    requires i <= |samples| && SlotSums(AgentsOf(samples[..i])).None?
    ensures SlotSums(AgentsOf(samples)).None?
    decreases |samples| - i
  {
    if i < |samples| {
      var longer := samples[..i + 1];
      assert longer[..i] == samples[..i];
      var a, b := AgentsOf(samples[..i]), AgentsOf(longer);
      assert b == a + samples[i].agents;
      var j :| 0 <= j < |a| && |a[j].values| > UNITS;
      assert b[j] == a[j];
      SlotSumsPrefix(samples, i + 1);
    } else {
      assert samples[..i] == samples;
    }
  }
}
