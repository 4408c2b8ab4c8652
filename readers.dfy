/**
 * The three input files that the reduced-variance, coefficient and ratio
 * programs read, each given as the list that String.split("\n") makes of
 * it: the average normalised unit values (one per line), the control
 * variate coefficients (one per line) and the average-payoff report.
 * Double.valueOf is the parameter toReal, None where it throws.
 */
module Readers {
  import opened Wrappers
  import opened JavaStrings
  import opened Market
  import opened Report

  /**
   * The unit-values file: line j, trimmed, is the average of slot j; slots
   * without a line stay 0.0; a line that does not parse, or a line after
   * the UNITS-th (the array overflows), is an exception.
   */
  function UnitValues(lines: seq<string>, toReal: string -> Option<real>): (r: Option<seq<real>>)
    ensures r.Some? <==> |lines| <= UNITS && forall j :: 0 <= j < |lines| ==> toReal(Trim(lines[j])).Some?
    ensures r.Some? ==> |r.value| == UNITS
    ensures r.Some? ==> forall j :: 0 <= j < |lines| ==> Some(r.value[j]) == toReal(Trim(lines[j]))
    ensures r.Some? ==> forall j :: |lines| <= j < UNITS ==> r.value[j] == 0.0
  {
    if |lines| > UNITS || exists j :: 0 <= j < |lines| && toReal(Trim(lines[j])).None? then None
    else Some(seq(UNITS, j requires 0 <= j < UNITS => if j < |lines| then toReal(Trim(lines[j])).value else 0.0))
  }

  /** The reading loop: avgNormalizedUnitValue[count++] = Double.valueOf(line.trim()). */
  method ReadUnitValues(lines: seq<string>, toReal: string -> Option<real>) returns (r: Option<seq<real>>)
    ensures r == UnitValues(lines, toReal)
  {
    var avg := new real[UNITS](_ => 0.0);
    var count := 0;
    while count < |lines|
      invariant count <= |lines| && count <= UNITS
      invariant forall j :: 0 <= j < count ==> Some(avg[j]) == toReal(Trim(lines[j]))
      invariant forall j :: count <= j < UNITS ==> avg[j] == 0.0
    {
      var v := toReal(Trim(lines[count]));
      if v.None? || count == UNITS {
        assert |lines| > UNITS || toReal(Trim(lines[count])).None?;
        return None;
      }
      avg[count] := v.value;
      count := count + 1;
    }
    assert UnitValues(lines, toReal).Some?;
    assert forall j :: 0 <= j < UNITS ==> avg[..][j] == UnitValues(lines, toReal).value[j];
    assert avg[..] == UnitValues(lines, toReal).value;
    r := Some(avg[..]);
  }

  /**
   * The coefficients file: the first UNITS lines, trimmed; fewer lines, or
   * one of them that does not parse, is an exception; later lines are
   * never read.
   */
  function Coefficients(lines: seq<string>, toReal: string -> Option<real>): (r: Option<seq<real>>)
    ensures r.Some? <==> |lines| >= UNITS && forall u :: 0 <= u < UNITS ==> toReal(Trim(lines[u])).Some?
    ensures r.Some? ==> |r.value| == UNITS && forall u :: 0 <= u < UNITS ==> Some(r.value[u]) == toReal(Trim(lines[u]))
  {
    if |lines| < UNITS || exists u :: 0 <= u < UNITS && toReal(Trim(lines[u])).None? then None
    else Some(seq(UNITS, u requires 0 <= u < UNITS => toReal(Trim(lines[u])).value))
  }

  /** The loop conVarCoeffs[i] = Double.valueOf(coeffs[i].trim()) for i below UNITS. */
  method ReadCoefficients(lines: seq<string>, toReal: string -> Option<real>) returns (r: Option<seq<real>>)
    ensures r == Coefficients(lines, toReal)
  {
    var c := new real[UNITS](_ => 0.0);
    for i := 0 to UNITS
      invariant i <= |lines|
      invariant forall u :: 0 <= u < i ==> Some(c[u]) == toReal(Trim(lines[u]))
    {
      if i >= |lines| {
        assert Coefficients(lines, toReal).None?;
        return None;
      }
      var v := toReal(Trim(lines[i]));
      if v.None? {
        assert toReal(Trim(lines[i])).None?;
        assert Coefficients(lines, toReal).None?;
        return None;
      }
      c[i] := v.value;
    }
    assert Coefficients(lines, toReal).Some?;
    assert forall u :: 0 <= u < UNITS ==> c[..][u] == Coefficients(lines, toReal).value[u];
    assert c[..] == Coefficients(lines, toReal).value;
    r := Some(c[..]);
  }

  // ---------------------------------------------------------------------
  // The average-payoff report, with every payoff line through Double.valueOf

  /** Double.valueOf succeeds on every text of the column. */
  predicate ColumnParses(col: seq<string>, toReal: string -> Option<real>) {
    forall j :: 0 <= j < |col| ==> toReal(col[j]).Some?
  }

  function ValueOf(x: Option<real>): real {
    if x.Some? then x.value else 0.0
  }

  /** A column of payoff texts as the doubles they parse to. */
  function ConvertColumn(col: seq<string>, toReal: string -> Option<real>): (r: seq<real>)
    ensures |r| == |col| && forall j :: 0 <= j < |col| ==> r[j] == ValueOf(toReal(col[j]))
  {
    seq(|col|, j requires 0 <= j < |col| => ValueOf(toReal(col[j])))
  }

  /** Every payoff line the reading loop visits from index on, for remaining profiles, parses as a double. */
  predicate CellsParse(lines: seq<string>, index: nat, remaining: int, toReal: string -> Option<real>)
    decreases if remaining > 0 then remaining else 0
  {
    remaining <= 0 ||
    match StrategyCountAt(lines, index)
      case None => false
      case Some(n) =>
        ColumnParses(PayoffColumn(lines, index + 3, n), toReal) && CellsParse(lines, index + 3 + 4 * n, remaining - 1, toReal)
  }

  /** The parsed payoff texts, each converted with toReal. */
  function Convert(m: map<string, seq<string>>, toReal: string -> Option<real>): (r: map<string, seq<real>>)
    ensures forall k :: k in r <==> k in m
    ensures forall k :: k in r ==> r[k] == ConvertColumn(m[k], toReal)
  {
    map k | k in m :: ConvertColumn(m[k], toReal)
  }

  lemma ConvertUpdate(m: map<string, seq<string>>, k: string, col: seq<string>, toReal: string -> Option<real>)
    ensures Convert(m[k := col], toReal) == Convert(m, toReal)[k := ConvertColumn(col, toReal)]
  {
  }

  /**
   * The strategyProfileAvgs map: the report read by the positional reader,
   * provided every payoff line it meets is a double (a later profile with
   * the same key replaces an earlier one, whose payoff lines must parse
   * all the same).
   */
  function ParsedAverages(lines: seq<string>, toReal: string -> Option<real>): Option<map<string, seq<real>>> {
    match ParsedReport(lines)
      case None => None
      case Some(m) =>
        var count := ParseInt(lines[0]);
        if count.Some? && CellsParse(lines, 1, count.value, toReal) then Some(Convert(m, toReal)) else None
  }

  /** The averages once the profile count is read. */
  lemma ParsedAveragesFrom(lines: seq<string>, count: int, toReal: string -> Option<real>)
    requires |lines| > 0 && ParseInt(lines[0]) == Some(count)
    ensures ParsedAverages(lines, toReal)
         == if ParseProfiles(lines, 1, count, map[]).Some? && CellsParse(lines, 1, count, toReal)
            then Some(Convert(ParseProfiles(lines, 1, count, map[]).value, toReal)) else None
  {
  }

  /** One profile of the reading loop, for both the texts and the parse check. */
  lemma ReadStep(lines: seq<string>, index: nat, remaining: int, texts: map<string, seq<string>>, n: nat, toReal: string -> Option<real>)
    requires remaining > 0 && StrategyCountAt(lines, index) == Some(n)
    ensures ParseProfiles(lines, index, remaining, texts)
         == ParseProfiles(lines, index + 3 + 4 * n, remaining - 1, texts[lines[index] := PayoffColumn(lines, index + 3, n)])
    ensures CellsParse(lines, index, remaining, toReal)
         == (ColumnParses(PayoffColumn(lines, index + 3, n), toReal) && CellsParse(lines, index + 3 + 4 * n, remaining - 1, toReal))
  {
  }

  /**
   * The reading loop of the report: an index cursor, the key at index, the
   * strategy count two lines down, and Double.valueOf of the third line of
   * every four-line block.
   */
  method ReadAverages(lines: seq<string>, toReal: string -> Option<real>) returns (r: Option<map<string, seq<real>>>)
    ensures r == ParsedAverages(lines, toReal)
  {
    if |lines| == 0 {
      return None;
    }
    var profileCount := ParseInt(lines[0]);
    if profileCount.None? {
      return None;
    }
    ParsedAveragesFrom(lines, profileCount.value, toReal);
    r := ReadProfiles(lines, profileCount.value, toReal);
  }

  /** The loop over the profiles, from the line after the count line. */
  method ReadProfiles(lines: seq<string>, count: int, toReal: string -> Option<real>) returns (r: Option<map<string, seq<real>>>)
    ensures r == if ParseProfiles(lines, 1, count, map[]).Some? && CellsParse(lines, 1, count, toReal)
                 then Some(Convert(ParseProfiles(lines, 1, count, map[]).value, toReal)) else None
  {
    ghost var texts: map<string, seq<string>> := map[];
    var acc: map<string, seq<real>> := map[];
    var index: nat := 1;
    var i := 0;
    while i < count
      invariant ParseProfiles(lines, index, count - i, texts) == ParseProfiles(lines, 1, count, map[])
      invariant CellsParse(lines, index, count - i, toReal) == CellsParse(lines, 1, count, toReal)
      invariant acc == Convert(texts, toReal)
      decreases count - i
    {
      var ok, next, texts', acc' := ReadNext(lines, index, count - i, texts, acc, toReal);
      if !ok {
        return None;
      }
      texts, acc, index := texts', acc', next;
      i := i + 1;
    }
    assert ParseProfiles(lines, index, count - i, texts) == Some(texts);
    r := Some(acc);
  }

  /** One turn of the loop: read the profile at index and store its payoffs under its key. */
  method ReadNext(lines: seq<string>, index: nat, ghost remaining: int, ghost texts: map<string, seq<string>>,
                  acc: map<string, seq<real>>, toReal: string -> Option<real>)
    returns (ok: bool, next: nat, ghost texts': map<string, seq<string>>, acc': map<string, seq<real>>)
    requires remaining > 0 && acc == Convert(texts, toReal)
    ensures !ok ==> ParseProfiles(lines, index, remaining, texts).None? || !CellsParse(lines, index, remaining, toReal)
    ensures ok ==> ParseProfiles(lines, next, remaining - 1, texts') == ParseProfiles(lines, index, remaining, texts)
    ensures ok ==> CellsParse(lines, next, remaining - 1, toReal) == CellsParse(lines, index, remaining, toReal)
    ensures ok ==> acc' == Convert(texts', toReal)
  {
    var profile := ReadProfile(lines, index, toReal);
    if profile.None? {
      ReadFailure(lines, index, remaining, texts, toReal);
      return false, index, texts, acc;
    }
    var n := profile.value.0;
    ghost var col := PayoffColumn(lines, index + 3, n);
    ReadStep(lines, index, remaining, texts, n, toReal);
    ConvertUpdate(texts, lines[index], col, toReal);
    ok, next, texts', acc' := true, index + 3 + 4 * n, texts[lines[index] := col], acc[lines[index] := profile.value.1];
  }

  /** One profile: its header, and its payoff lines through Double.valueOf. */
  method ReadProfile(lines: seq<string>, index: nat, toReal: string -> Option<real>) returns (r: Option<(nat, seq<real>)>)
    ensures r.Some? <==> StrategyCountAt(lines, index).Some? && ColumnParses(PayoffColumn(lines, index + 3, StrategyCountAt(lines, index).value), toReal)
    ensures r.Some? ==> StrategyCountAt(lines, index) == Some(r.value.0)
    ensures r.Some? ==> r.value.1 == ConvertColumn(PayoffColumn(lines, index + 3, r.value.0), toReal)
  {
    var header := ReadHeader(lines, index);
    if header.None? {
      return None;
    }
    var n := header.value;
    var payoffs := ReadPayoffValues(lines, index + 3, n, toReal);
    if payoffs.None? {
      return None;
    }
    r := Some((n, payoffs.value));
  }

  /** A profile the loop cannot read ends the parse, or fails the parse check. */
  lemma ReadFailure(lines: seq<string>, index: nat, remaining: int, texts: map<string, seq<string>>, toReal: string -> Option<real>)
    requires remaining > 0
    requires StrategyCountAt(lines, index).Some? ==> !ColumnParses(PayoffColumn(lines, index + 3, StrategyCountAt(lines, index).value), toReal)
    ensures ParseProfiles(lines, index, remaining, texts).None? || !CellsParse(lines, index, remaining, toReal)
  {
  }

  /** The inner loop: payoffs[j] = Double.valueOf(split[index + 2]), index advancing by 4. */
  method ReadPayoffValues(lines: seq<string>, start: nat, n: nat, toReal: string -> Option<real>) returns (p: Option<seq<real>>)
    requires n == 0 || start + 4 * n - 2 < |lines|
    ensures p.Some? <==> ColumnParses(PayoffColumn(lines, start, n), toReal)
    ensures p.Some? ==> p.value == ConvertColumn(PayoffColumn(lines, start, n), toReal)
  {
    ghost var col := PayoffColumn(lines, start, n);
    var payoffs := new real[n];
    var index := start;
    for j := 0 to n
      invariant index == start + 4 * j
      invariant forall k :: 0 <= k < j ==> toReal(col[k]).Some? && payoffs[k] == toReal(col[k]).value
    {
      var v := toReal(lines[index + 2]);
      if v.None? {
        assert toReal(col[j]).None?;
        return None;
      }
      payoffs[j] := v.value;
      index := index + 4;
    }
    assert payoffs[..] == ConvertColumn(col, toReal);
    p := Some(payoffs[..]);
  }

  /** What the readers get from a report whose payoff texts are show's texts of reals that toReal reads back. */
  ghost predicate ReadsAsDoubles(show: real -> string, toReal: string -> Option<real>) {
    forall x :: toReal(show(x)) == Some(x)
  }

  lemma ReadBack(show: real -> string, toReal: string -> Option<real>, x: real)
    requires ReadsAsDoubles(show, toReal)
    ensures toReal(show(x)) == Some(x)
  {
  }

  /** Rendered blocks whose payoff texts all parse leave the reading loop nothing it cannot convert. */
  lemma {:induction false} RenderedCellsParse(lines: seq<string>, start: nat, bs: seq<Block>, toReal: string -> Option<real>)
    requires BlocksAt(lines, start, bs)
    requires forall i, j :: 0 <= i < |bs| && 0 <= j < |bs[i].rows| ==> toReal(bs[i].rows[j].payoff).Some?
    ensures CellsParse(lines, start, |bs|, toReal)
    decreases |bs|
  {
    if |bs| > 0 {
      var n := |bs[0].rows|;
      IntToStringRoundTrip(n);
      assert StrategyCountAt(lines, start) == Some(n);
      var col := PayoffColumn(lines, start + 3, n);
      forall j | 0 <= j < n ensures toReal(col[j]).Some? {
        assert col[j] == Payoffs(bs[0].rows)[j] == bs[0].rows[j].payoff;
      }
      assert forall i, j :: 0 <= i < |bs[1..]| && 0 <= j < |bs[1..][i].rows| ==> bs[1..][i].rows[j] == bs[i + 1].rows[j];
      RenderedCellsParse(lines, start + 3 + 4 * n, bs[1..], toReal);
    }
  }

  /**
   * A rendered report whose payoff texts toReal reads back reads as, under
   * every key, the reals of its payoff texts.
   */
  lemma RenderedAverages(bs: seq<Block>, toReal: string -> Option<real>)
    requires Printable(bs)
    requires forall i, j :: 0 <= i < |bs| && 0 <= j < |bs[i].rows| ==> toReal(bs[i].rows[j].payoff).Some?
    ensures ParsedReport(RenderReport(bs)).Some?
    ensures ParsedAverages(RenderReport(bs), toReal) == Some(Convert(ParsedReport(RenderReport(bs)).value, toReal))
  {
    var lines := RenderReport(bs);
    ReportRoundTrip(bs);
    IntToStringRoundTrip(|bs|);
    assert lines[1..1 + |BlocksLines(bs)|] == BlocksLines(bs);
    RenderedBlocksAt(lines, 1, bs);
    RenderedCellsParse(lines, 1, bs, toReal);
  }

  /** Double.toString prints no surrounding blanks, and Double.valueOf reads its text back. */
  ghost predicate ReadsTrimmedAsDoubles(show: real -> string, toReal: string -> Option<real>) {
    forall x :: toReal(Trim(show(x))) == Some(x)
  }

  lemma ReadBackValue(show: real -> string, toReal: string -> Option<real>, x: real)
    requires ReadsTrimmedAsDoubles(show, toReal)
    ensures toReal(Trim(show(x))) == Some(x)
  {
  }
}
