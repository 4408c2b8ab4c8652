/**
 * The plain-text payoff report, as lines: the number of profiles, then per
 * profile its key, its sample count and its number of strategies, then
 * four lines per strategy (name, agent count / 4, payoff, standard
 * deviation).  The payoff and deviation lines are Double.toString texts and
 * are carried here as opaque strings.  The parser is the positional reader
 * that the other programs use on this report.
 */
module Report {
  import opened Wrappers
  import opened JavaStrings

  datatype Row = Row(name: string, count: int, payoff: string, std: string)

  datatype Block = Block(key: string, samples: int, rows: seq<Row>)

  function RowLines(rows: seq<Row>): (r: seq<string>)
    ensures |r| == 4 * |rows|
  {
    if |rows| == 0 then []
    else
      var row := rows[|rows| - 1];
      RowLines(rows[..|rows| - 1]) + [row.name, IntToString(row.count), row.payoff, row.std]
  }

  function BlockLines(b: Block): (r: seq<string>)
    ensures |r| == 3 + 4 * |b.rows|
  {
    [b.key, IntToString(b.samples), IntToString(|b.rows|)] + RowLines(b.rows)
  }

  function BlocksLines(bs: seq<Block>): seq<string> {
    if |bs| == 0 then [] else BlockLines(bs[0]) + BlocksLines(bs[1..])
  }

  /** The whole report, profiles in the given order. */
  function RenderReport(bs: seq<Block>): seq<string> {
    [IntToString(|bs|)] + BlocksLines(bs)
  }

  /** The number of lines that the blocks take: 3 + 4 n per profile with n strategies. */
  function LineCount(bs: seq<Block>): nat {
    if |bs| == 0 then 0 else 3 + 4 * |bs[0].rows| + LineCount(bs[1..])
  }

  lemma {:induction false} BlocksLinesLength(bs: seq<Block>)
    ensures |BlocksLines(bs)| == LineCount(bs)
  {
    if |bs| > 0 {
      BlocksLinesLength(bs[1..]);
    }
  }

  /** Appending a profile to the report appends its lines. */
  lemma {:induction false} BlocksLinesSnoc(bs: seq<Block>, b: Block)
    ensures BlocksLines(bs + [b]) == BlocksLines(bs) + BlockLines(b)
  {
    if |bs| == 0 {
      assert [b][1..] == [];
    } else {
      assert (bs + [b])[1..] == bs[1..] + [b];
      BlocksLinesSnoc(bs[1..], b);
    }
  }

  lemma BlocksLinesPrefix(bs: seq<Block>, j: int)
    requires 0 <= j < |bs|
    ensures BlocksLines(bs[..j + 1]) == BlocksLines(bs[..j]) + BlockLines(bs[j])
  {
    assert bs[..j + 1] == bs[..j] + [bs[j]];
    BlocksLinesSnoc(bs[..j], bs[j]);
  }

  /** The report has one count line and 3 + 4 n lines per profile with n strategies. */
  lemma RenderReportLength(bs: seq<Block>)
    ensures |RenderReport(bs)| == 1 + LineCount(bs)
  {
    BlocksLinesLength(bs);
  }

  /** The payoff texts of a block, in row order. */
  function Payoffs(rows: seq<Row>): (r: seq<string>)
    ensures |r| == |rows| && forall j :: 0 <= j < |rows| ==> r[j] == rows[j].payoff
  {
    seq(|rows|, j requires 0 <= j < |rows| => rows[j].payoff)
  }

  /** The line of row j that holds its payoff. */
  lemma {:induction false} RowLinesPayoff(rows: seq<Row>, j: int)
    requires 0 <= j < |rows|
    ensures RowLines(rows)[4 * j + 2] == rows[j].payoff
  {
    var n := |rows| - 1;
    if j < n {
      RowLinesPayoff(rows[..n], j);
      assert RowLines(rows)[4 * j + 2] == RowLines(rows[..n])[4 * j + 2];
      assert rows[..n][j] == rows[j];
    }
  }

  /**
   * The reading loop from cursor index with remaining profiles still to
   * read: the key at index, the strategy count two lines down, and the
   * payoff on the third line of each four-line block.  An index past the
   * end, a count that is not an int or is negative is an exception in the
   * source and None here; a later profile with the same key replaces the
   * earlier one.
   */
  function ParseProfiles(lines: seq<string>, index: nat, remaining: int, acc: map<string, seq<string>>): Option<map<string, seq<string>>>
    decreases if remaining > 0 then remaining else 0
  {
    if remaining <= 0 then Some(acc)
    else match StrategyCountAt(lines, index)
      case None => None
      case Some(n) =>
        ParseProfiles(lines, index + 3 + 4 * n, remaining - 1, acc[lines[index] := PayoffColumn(lines, index + 3, n)])
  }

  /**
   * The strategy count of the profile whose key is at line index, when the
   * loop can read it and all of its payoff lines: None where the source
   * runs past the end of the list, meets a count that is not an int, or a
   * negative count (NegativeArraySizeException).
   */
  function StrategyCountAt(lines: seq<string>, index: nat): (r: Option<nat>)
    ensures r.Some? ==> index + 2 < |lines| && ParseInt(lines[index + 2]) == Some(r.value)
    ensures r.Some? ==> r.value == 0 || index + 4 * r.value + 1 < |lines|
  {
    if index + 2 >= |lines| then None
    else match ParseInt(lines[index + 2])
      case None => None
      case Some(n) =>
        if n < 0 then None
        else if n > 0 && index + 4 * n + 1 >= |lines| then None
        else Some(n)
  }

  /** The third line of each of n four-line blocks starting at start. */
  function PayoffColumn(lines: seq<string>, start: nat, n: nat): (r: seq<string>)
    requires n == 0 || start + 4 * n - 2 < |lines|
  {
    seq(n, j requires 0 <= j < n => lines[start + 4 * j + 2])
  }

  /** The payoff texts per profile key, as the other programs read the report. */
  function ParsedReport(lines: seq<string>): Option<map<string, seq<string>>> {
    if |lines| == 0 then None
    else match ParseInt(lines[0])
      case None => None
      case Some(count) => ParseProfiles(lines, 1, count, map[])
  }

  /** The reads of a profile's key line and count line, with the source's cursor moves. */
  method ReadHeader(lines: seq<string>, index: nat) returns (r: Option<nat>)
    ensures r == StrategyCountAt(lines, index)
  {
    var cursor := index;
    if cursor >= |lines| {
      return None;
    }
    cursor := cursor + 2;
    if cursor >= |lines| {
      return None;
    }
    var strategyCount := ParseInt(lines[cursor]);
    if strategyCount.None? || strategyCount.value < 0 {
      return None;
    }
    var n := strategyCount.value;
    cursor := cursor + 1;
    if n > 0 && cursor + 4 * (n - 1) + 2 >= |lines| {
      return None;
    }
    r := Some(n);
  }

  /** The map the parser builds from the blocks: their payoff texts under their keys, later blocks winning. */
  function PayoffMapFrom(acc: map<string, seq<string>>, bs: seq<Block>): map<string, seq<string>>
    decreases |bs|
  {
    if |bs| == 0 then acc else PayoffMapFrom(acc[bs[0].key := Payoffs(bs[0].rows)], bs[1..])
  }

  predicate DistinctKeys(bs: seq<Block>) {
    forall i, j :: 0 <= i < j < |bs| ==> bs[i].key != bs[j].key
  }

  /** Counts that String.valueOf writes and Integer.valueOf reads back. */
  predicate Printable(bs: seq<Block>) {
    |bs| <= INT_MAX && forall i :: 0 <= i < |bs| ==> |bs[i].rows| <= INT_MAX
  }

  /** What the parser reads from a block that is followed by tail, both starting at line start. */
  lemma BlockAt(lines: seq<string>, start: nat, b: Block, tail: seq<string>)
    requires start + |BlockLines(b)| + |tail| <= |lines|
    requires lines[start..start + |BlockLines(b)| + |tail|] == BlockLines(b) + tail
    ensures var n := |b.rows|;
      && lines[start] == b.key
      && lines[start + 2] == IntToString(n)
      && start + 4 * n + 2 < |lines|
      && PayoffColumn(lines, start + 3, n) == Payoffs(b.rows)
    ensures var next := start + |BlockLines(b)|;
      lines[next..next + |tail|] == tail
  {
    var block := BlockLines(b);
    var w := lines[start..start + |block| + |tail|];
    var n := |b.rows|;
    assert lines[start] == w[0] == block[0];
    assert lines[start + 2] == w[2] == block[2];
    forall j | 0 <= j < n ensures lines[start + 3 + 4 * j + 2] == b.rows[j].payoff {
      RowLinesPayoff(b.rows, j);
      assert lines[start + 3 + 4 * j + 2] == w[3 + 4 * j + 2] == block[3 + 4 * j + 2];
    }
    var next := start + |block|;
    forall k | 0 <= k < |tail| ensures lines[next + k] == tail[k] {
      assert lines[next + k] == w[|block| + k];
    }
  }

  /** One step of the reading loop: a well-formed profile header and its payoff lines. */
  lemma ParseOneProfile(lines: seq<string>, index: nat, n: nat, remaining: int,
                        acc: map<string, seq<string>>, result: map<string, seq<string>>)
    requires remaining > 0 && index + 4 * n + 2 < |lines|
    requires ParseInt(lines[index + 2]) == Some(n)
    requires ParseProfiles(lines, index + 3 + 4 * n, remaining - 1, acc[lines[index] := PayoffColumn(lines, index + 3, n)]) == Some(result)
    ensures ParseProfiles(lines, index, remaining, acc) == Some(result)
  {
  }

  /** The header and payoff lines that the reading loop looks at for block b at line start. */
  predicate HeaderAt(lines: seq<string>, start: nat, b: Block) {
    var n := |b.rows|;
    && start + 4 * n + 2 < |lines|
    && lines[start] == b.key
    && n <= INT_MAX
    && lines[start + 2] == IntToString(n)
    && PayoffColumn(lines, start + 3, n) == Payoffs(b.rows)
  }

  /** Every block has its header and payoff lines where the reading loop looks for them. */
  predicate BlocksAt(lines: seq<string>, start: nat, bs: seq<Block>)
    decreases |bs|
  {
    |bs| == 0 || (HeaderAt(lines, start, bs[0]) && BlocksAt(lines, start + 3 + 4 * |bs[0].rows|, bs[1..]))
  }

  /** Rendered blocks, wherever they sit in the lines, are laid out the way the reading loop expects. */
  lemma {:induction false} RenderedBlocksAt(lines: seq<string>, start: nat, bs: seq<Block>)
    requires Printable(bs)
    requires start + |BlocksLines(bs)| <= |lines|
    requires lines[start..start + |BlocksLines(bs)|] == BlocksLines(bs)
    ensures BlocksAt(lines, start, bs)
    decreases |bs|
  {
    if |bs| > 0 {
      FirstBlockAt(lines, start, bs);
      RenderedBlocksAt(lines, start + 3 + 4 * |bs[0].rows|, bs[1..]);
    }
  }

  /** The first rendered block has its header in place, and the other blocks follow it. */
  lemma FirstBlockAt(lines: seq<string>, start: nat, bs: seq<Block>)
    requires |bs| > 0 && Printable(bs)
    requires start + |BlocksLines(bs)| <= |lines|
    requires lines[start..start + |BlocksLines(bs)|] == BlocksLines(bs)
    ensures HeaderAt(lines, start, bs[0]) && Printable(bs[1..])
    ensures var next, tail := start + 3 + 4 * |bs[0].rows|, BlocksLines(bs[1..]);
      next + |tail| <= |lines| && lines[next..next + |tail|] == tail
  {
    var b, tail := bs[0], BlocksLines(bs[1..]);
    assert BlocksLines(bs) == BlockLines(b) + tail;
    BlockAt(lines, start, b, tail);
    var next := start + |BlockLines(b)|;
    assert next == start + 3 + 4 * |b.rows|;
    assert lines[next..next + |tail|] == tail;
    assert |b.rows| <= INT_MAX;
  }

  /** Reading blocks laid out from line start gives their payoff texts under their keys. */
  lemma {:induction false} ParseBlocksAt(lines: seq<string>, start: nat, bs: seq<Block>, acc: map<string, seq<string>>)
    requires BlocksAt(lines, start, bs)
    ensures ParseProfiles(lines, start, |bs|, acc) == Some(PayoffMapFrom(acc, bs))
    decreases |bs|
  {
    if |bs| > 0 {
      var n := |bs[0].rows|;
      var acc' := acc[bs[0].key := Payoffs(bs[0].rows)];
      ParseBlocksAt(lines, start + 3 + 4 * n, bs[1..], acc');
      IntToStringRoundTrip(n);
      ParseOneProfile(lines, start, n, |bs|, acc, PayoffMapFrom(acc', bs[1..]));
    }
  }

  /**
   * Reading a rendered report gives, under every key, that profile's payoff
   * texts in the order they were written.
   */
  lemma ReportRoundTrip(bs: seq<Block>)
    requires Printable(bs)
    ensures ParsedReport(RenderReport(bs)) == Some(PayoffMapFrom(map[], bs))
  {
    var lines := RenderReport(bs);
    IntToStringRoundTrip(|bs|);
    assert lines[1..1 + |BlocksLines(bs)|] == BlocksLines(bs);
    RenderedBlocksAt(lines, 1, bs);
    ParseBlocksAt(lines, 1, bs, map[]);
  }

  /** With distinct keys the parsed map has exactly the blocks' keys, each with its own payoff texts. */
  lemma {:induction false} PayoffMapFromDistinct(acc: map<string, seq<string>>, bs: seq<Block>)
    requires DistinctKeys(bs)
    ensures forall i :: 0 <= i < |bs| ==> bs[i].key in PayoffMapFrom(acc, bs) && PayoffMapFrom(acc, bs)[bs[i].key] == Payoffs(bs[i].rows)
    ensures forall k :: k in PayoffMapFrom(acc, bs) <==> k in acc || exists i :: 0 <= i < |bs| && bs[i].key == k
    ensures forall k :: k in acc && (forall i :: 0 <= i < |bs| ==> bs[i].key != k) ==> PayoffMapFrom(acc, bs)[k] == acc[k]
    decreases |bs|
  {
    if |bs| > 0 {
      var acc' := acc[bs[0].key := Payoffs(bs[0].rows)];
      assert DistinctKeys(bs[1..]);
      PayoffMapFromDistinct(acc', bs[1..]);
      forall i | 0 < i < |bs| ensures bs[1..][i - 1] == bs[i] { }
      forall k ensures k in PayoffMapFrom(acc, bs) <==> k in acc || exists i :: 0 <= i < |bs| && bs[i].key == k {
        if exists i :: 0 <= i < |bs| && bs[i].key == k {
          var i :| 0 <= i < |bs| && bs[i].key == k;
          if i > 0 {
            assert bs[1..][i - 1].key == k;
          }
        }
      }
    }
  }

  /** A report of profiles with distinct keys reads back as each profile's payoff texts under its key. */
  lemma ReportReadsBlocks(bs: seq<Block>)
    requires Printable(bs) && DistinctKeys(bs)
    ensures ParsedReport(RenderReport(bs)).Some?
    ensures var m := ParsedReport(RenderReport(bs)).value;
      forall j :: 0 <= j < |bs| ==> bs[j].key in m && m[bs[j].key] == Payoffs(bs[j].rows)
    ensures var m := ParsedReport(RenderReport(bs)).value;
      forall k :: k in m ==> exists j :: 0 <= j < |bs| && bs[j].key == k
  {
    ReportRoundTrip(bs);
    PayoffMapFromDistinct(map[], bs);
  }
}
