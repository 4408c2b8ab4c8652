/**
 * ConvertPayoffMatrix: reads a payoff matrix printed as a Matlab array (an
 * 18-line preamble, then one row per line until "];"), where each row holds
 * four strategy ids and the four matching payoffs, and prints it as game
 * JSON.  Each row becomes a profile keyed by "count name" for each of its
 * four positions in line order; a later row with the same key replaces the
 * earlier one.
 */
module PayoffMatrix {
  import opened Wrappers
  import opened JavaStrings
  import opened Sorting
  import opened Utils
  import opened Market
  import opened Profiles
  import opened GameJson

  /** in.readLine() is called this many times before the rows. */
  const HEADER_LINES: nat := 18
  /** Strategy ids per row; the payoffs follow them. */
  const PLAYERS: nat := 4
  /** The trimmed line that ends the matrix. */
  const END_OF_MATRIX: string := "];"

  /** Everything printed before the profiles array. */
  const MatrixHeader: string :=
    "{\"id\":\"329509325323\"," + "\"name\":\"CDA-Schvartzman\"," + "\"simulator_fullname\":\"Schvartzman\","
    + "\"parameter_hash\":{\"foo\":\"bar\"},"
    + "\"roles\":[{\"name\":\"ALL\",\"count\":4,\"strategies\":[\"GD\",\"GDX\",\"KAPLAN\",\"RB\",\"ZI\",\"ZIBTQ\",\"ZIP\"]}],"

  /** The names the id table can produce. */
  const Names: set<string> := {"GD", "GDX", "KAPLAN", "ZI", "ZIP", "ZIBTQ", "RB"}

  /** strategyMap: the hard-coded table from strategy id to name. */
  function StrategyName(id: int): (r: Option<string>)
    ensures r.Some? <==> 0 <= id <= 6
    ensures r.Some? ==> r.value in Names
  {
    match id
    case 0 => Some("GD")
    case 1 => Some("GDX")
    case 2 => Some("KAPLAN")
    case 3 => Some("ZI")
    case 4 => Some("ZIP")
    case 5 => Some("ZIBTQ")
    case 6 => Some("RB")
    case _ => None
  }

  /** Different ids give different names. */
  lemma StrategyNameInjective(a: int, b: int)
    requires StrategyName(a).Some? && StrategyName(a) == StrategyName(b)
    ensures a == b
  {
  }

  /** Every name is a single non-empty token. */
  lemma NamesAreTokens()
    ensures forall n :: n in Names ==> IsToken(n)
  {
  }

  // ---------------------------------------------------------------------
  // One line of the matrix

  /** The tokens of a line: trimmed, every run of spaces collapsed to one, split on a space. */
  function Tokens(line: string): seq<string> {
    SplitOnSpace(SquashSpaces(Trim(line)))
  }

  /** The name for the id at position i, if there is a position i, it holds an int and the table knows it. */
  function NameAt(split: seq<string>, i: nat): Option<string> {
    if i < |split| then
      var id := ParseInt(split[i]);
      if id.None? then None else StrategyName(id.value)
    else None
  }

  /** The payoff for position i: token i + 4 read as a double. */
  function PayoffAt(split: seq<string>, toReal: string -> Option<real>, i: nat): Option<real> {
    if i + PLAYERS < |split| then toReal(split[i + PLAYERS]) else None
  }

  /** Position i has a known id and a readable payoff. */
  predicate ValidAt(split: seq<string>, toReal: string -> Option<real>, i: nat) {
    NameAt(split, i).Some? && PayoffAt(split, toReal, i).Some?
  }

  /** Position i holds an int that is not in the table: the line is skipped. */
  predicate UnknownIdAt(split: seq<string>, i: nat) {
    i < |split| && ParseInt(split[i]).Some? && StrategyName(ParseInt(split[i]).value).None?
  }

  /** The first position from k on that is not valid, or PLAYERS when all are. */
  function FirstInvalid(split: seq<string>, toReal: string -> Option<real>, k: nat): (f: nat)
    requires k <= PLAYERS
    ensures k <= f <= PLAYERS
    ensures forall j :: k <= j < f ==> ValidAt(split, toReal, j)
    ensures f < PLAYERS ==> !ValidAt(split, toReal, f)
    decreases PLAYERS - k
  {
    if k == PLAYERS || !ValidAt(split, toReal, k) then k else FirstInvalid(split, toReal, k + 1)
  }

  /** The strategies of a row in line order and payoffMap. */
  datatype Row = Row(strategies: seq<string>, payoffs: map<string, real>)

  /**
   * What the line loop does with one line: a row, a skipped line (continue
   * READLINE), or an exception that ends the program (a missing token, or a
   * token that Integer.valueOf or Double.valueOf rejects).
   */
  datatype LineResult = Parsed(row: Row) | Skipped | Failed

  /** The loop over the four positions from i on, with strategies[..i] and payoffMap built so far. */
  function ConvertFrom(split: seq<string>, toReal: string -> Option<real>, i: nat,
                       names: seq<string>, payoffs: map<string, real>): LineResult
    requires i <= PLAYERS
    decreases PLAYERS - i
  {
    if i == PLAYERS then Parsed(Row(names, payoffs))
    else if i >= |split| then Failed
    else
      var id := ParseInt(split[i]);
      if id.None? then Failed
      else
        var name := StrategyName(id.value);
        if name.None? then Skipped
        else if i + PLAYERS >= |split| then Failed
        else
          var p := toReal(split[i + PLAYERS]);
          if p.None? then Failed
          else ConvertFrom(split, toReal, i + 1, names + [name.value], payoffs[name.value := p.value])
  }

  /** One line of the matrix after the clean-up. */
  function ParseLine(line: string, toReal: string -> Option<real>): LineResult {
    ConvertFrom(Tokens(line), toReal, 0, [], map[])
  }

  /**
   * A line is a row exactly when all four positions are valid, and it is
   * skipped exactly when the first position that is not valid holds an int
   * outside the table; anything else throws.
   */
  lemma {:induction false} LineOutcome(split: seq<string>, toReal: string -> Option<real>, k: nat,
                                       names: seq<string>, payoffs: map<string, real>)
    requires k <= PLAYERS
    ensures var r := ConvertFrom(split, toReal, k, names, payoffs);
      var f := FirstInvalid(split, toReal, k);
      (r.Parsed? <==> f == PLAYERS) && (r.Skipped? <==> f < PLAYERS && UnknownIdAt(split, f))
    decreases PLAYERS - k
  {
    if k < PLAYERS && ValidAt(split, toReal, k) {
      var n, p := NameAt(split, k).value, PayoffAt(split, toReal, k).value;
      LineOutcome(split, toReal, k + 1, names + [n], payoffs[n := p]);
    }
  }

  /** No later position of names holds the same strategy as position i. */
  predicate LastAt(names: seq<string>, i: nat)
    requires i < |names|
  {
    forall j :: i < j < |names| ==> names[j] != names[i]
  }

  /**
   * A row read from split: the strategy at each of the four positions, a
   * payoff for exactly the strategies that occur, and for each strategy the
   * payoff at its last position (payoffMap.put overwrites).
   */
  ghost predicate RowOf(split: seq<string>, toReal: string -> Option<real>, row: Row) {
    && |row.strategies| == PLAYERS
    && (forall i :: 0 <= i < PLAYERS ==> NameAt(split, i) == Some(row.strategies[i]))
    && (forall n :: n in row.payoffs <==> n in row.strategies)
    && (forall i :: 0 <= i < PLAYERS && LastAt(row.strategies, i) ==>
          PayoffAt(split, toReal, i) == Some(row.payoffs[row.strategies[i]]))
  }

  lemma {:induction false} RowContents(split: seq<string>, toReal: string -> Option<real>, k: nat,
                                       names: seq<string>, payoffs: map<string, real>)
    requires k <= PLAYERS && |names| == k
    requires forall i :: 0 <= i < k ==> NameAt(split, i) == Some(names[i])
    requires forall n :: n in payoffs <==> n in names
    requires forall i :: 0 <= i < k && LastAt(names, i) ==> PayoffAt(split, toReal, i) == Some(payoffs[names[i]])
    ensures var r := ConvertFrom(split, toReal, k, names, payoffs);
      r.Parsed? ==> RowOf(split, toReal, r.row)
    decreases PLAYERS - k
  {
    if k < PLAYERS {
      ConvertFromStep(split, toReal, k, names, payoffs);
      if ValidAt(split, toReal, k) {
        var n, p := NameAt(split, k).value, PayoffAt(split, toReal, k).value;
        LastPayoffsExtend(split, toReal, k, names, payoffs);
        RowContents(split, toReal, k + 1, names + [n], payoffs[n := p]);
      }
    }
  }

  /** One position of the loop: a valid one is consumed, any other ends the line without a row. */
  lemma ConvertFromStep(split: seq<string>, toReal: string -> Option<real>, k: nat,
                        names: seq<string>, payoffs: map<string, real>)
    requires k < PLAYERS
    ensures ValidAt(split, toReal, k) ==>
      var n, p := NameAt(split, k).value, PayoffAt(split, toReal, k).value;
      ConvertFrom(split, toReal, k, names, payoffs) == ConvertFrom(split, toReal, k + 1, names + [n], payoffs[n := p])
    ensures !ValidAt(split, toReal, k) ==> !ConvertFrom(split, toReal, k, names, payoffs).Parsed?
  {
  }

  /** After position k's put, each last position's payoff is still the one stored. */
  lemma LastPayoffsExtend(split: seq<string>, toReal: string -> Option<real>, k: nat,
                          names: seq<string>, payoffs: map<string, real>)
    requires |names| == k && ValidAt(split, toReal, k)
    requires forall n :: n in payoffs <==> n in names
    requires forall i :: 0 <= i < k && LastAt(names, i) ==> PayoffAt(split, toReal, i) == Some(payoffs[names[i]])
    ensures var n, p := NameAt(split, k).value, PayoffAt(split, toReal, k).value;
      var names', payoffs' := names + [n], payoffs[n := p];
      forall i :: 0 <= i < k + 1 && LastAt(names', i) ==> PayoffAt(split, toReal, i) == Some(payoffs'[names'[i]])
  {
    var n, p := NameAt(split, k).value, PayoffAt(split, toReal, k).value;
    var names', payoffs' := names + [n], payoffs[n := p];
    forall i | 0 <= i < k + 1 && LastAt(names', i)
      ensures PayoffAt(split, toReal, i) == Some(payoffs'[names'[i]])
    {
      if i < k {
        assert names'[k] != names'[i];
        assert LastAt(names, i) by {
          forall j | i < j < k ensures names[j] != names[i] {
            assert names'[j] == names[j];
          }
        }
      }
    }
  }

  /** Rows hold four strategies from the table, and payoffs for exactly those. */
  ghost predicate WellFormedRow(row: Row) {
    && |row.strategies| == PLAYERS
    && (forall n :: n in row.strategies ==> n in Names)
    && (forall n :: n in row.payoffs <==> n in row.strategies)
  }

  /** A parsed line is the row its tokens describe. */
  lemma ParsedLine(line: string, toReal: string -> Option<real>)
    requires ParseLine(line, toReal).Parsed?
    ensures RowOf(Tokens(line), toReal, ParseLine(line, toReal).row)
    ensures WellFormedRow(ParseLine(line, toReal).row)
  {
    var split := Tokens(line);
    RowContents(split, toReal, 0, [], map[]);
    var row := ParseLine(line, toReal).row;
    forall n | n in row.strategies ensures n in Names {
      var i :| 0 <= i < |row.strategies| && row.strategies[i] == n;
      assert NameAt(split, i) == Some(n);
    }
  }

  // ---------------------------------------------------------------------
  // The profile key

  /** profileBuilder: the count and then the name, for each position in line order. */
  function MatrixKeyTokens(strategies: seq<string>, counts: map<string, int>): (r: seq<string>)
    requires forall s :: s in strategies ==> s in counts
    ensures |r| == 2 * |strategies|
  {
    if |strategies| == 0 then []
    else
      var n := |strategies| - 1;
      var s := strategies[n];
      MatrixKeyTokens(strategies[..n], counts) + [IntToString(counts[s]), s]
  }

  /** Position j of the row puts its strategy's count at token 2j and its name at token 2j + 1. */
  lemma {:induction false} MatrixKeyTokensAt(strategies: seq<string>, counts: map<string, int>, j: int)
    requires forall s :: s in strategies ==> s in counts
    requires 0 <= j < |strategies|
    ensures var r := MatrixKeyTokens(strategies, counts);
      r[2 * j] == IntToString(counts[strategies[j]]) && r[2 * j + 1] == strategies[j]
  {
    var n := |strategies| - 1;
    var init := strategies[..n];
    var prev := MatrixKeyTokens(init, counts);
    var r := MatrixKeyTokens(strategies, counts);
    var name := strategies[j];
    var count := IntToString(counts[name]);
    assert r == prev + [IntToString(counts[strategies[n]]), strategies[n]];
    if j < n {
      assert forall s :: s in init ==> s in strategies;
      MatrixKeyTokensAt(init, counts, j);
      assert init[j] == name;
      assert prev[2 * j] == count && prev[2 * j + 1] == name;
      assert r[2 * j] == prev[2 * j] && r[2 * j + 1] == prev[2 * j + 1];
    } else {
      assert 2 * j == |prev| && r[2 * j] == count && r[2 * j + 1] == name;
    }
  }

  /** Every token of a row's key is a non-empty word without a space, when the names are. */
  lemma {:induction false} MatrixKeyTokensAreWords(strategies: seq<string>, counts: map<string, int>)
    requires forall s :: s in strategies ==> s in counts && IsToken(s)
    ensures forall i :: 0 <= i < |MatrixKeyTokens(strategies, counts)| ==> IsToken(MatrixKeyTokens(strategies, counts)[i])
  {
    if |strategies| > 0 {
      var n := |strategies| - 1;
      assert forall s :: s in strategies[..n] ==> s in strategies;
      MatrixKeyTokensAreWords(strategies[..n], counts);
      var tokens := MatrixKeyTokens(strategies, counts);
      assert tokens == MatrixKeyTokens(strategies[..n], counts) + [IntToString(counts[strategies[n]]), strategies[n]];
      assert IsToken(strategies[n]);
    }
  }

  /** The key of a row: its positions joined on a space, each as its strategy's count and name. */
  function MatrixKey(strategies: seq<string>): string {
    TallyCounts(strategies);
    Joined(MatrixKeyTokens(strategies, Tally(strategies)), " ")
  }

  /**
   * Splitting the key on a space gives back 2 * |strategies| tokens: the
   * number of times each position's strategy occurs in the row, then the
   * strategy, unsorted and repeated for a strategy that occurs twice.
   */
  lemma MatrixKeySplit(strategies: seq<string>)
    requires |strategies| > 0 && forall s :: s in strategies ==> IsToken(s)
    ensures var tokens := SplitOnSpace(MatrixKey(strategies));
      && |tokens| == 2 * |strategies|
      && forall j :: 0 <= j < |strategies| ==>
           tokens[2 * j] == IntToString(multiset(strategies)[strategies[j]]) && tokens[2 * j + 1] == strategies[j]
  {
    TallyCounts(strategies);
    var counts := Tally(strategies);
    var tokens := MatrixKeyTokens(strategies, counts);
    MatrixKeyTokensAreWords(strategies, counts);
    SplitJoined(tokens);
    forall j | 0 <= j < |strategies|
      ensures tokens[2 * j] == IntToString(counts[strategies[j]]) && tokens[2 * j + 1] == strategies[j]
    {
      MatrixKeyTokensAt(strategies, counts, j);
    }
  }

  /** The key determines the row's strategies, position by position. */
  lemma MatrixKeyStrategies(strategies: seq<string>)
    requires |strategies| > 0 && forall s :: s in strategies ==> IsToken(s)
    ensures StrategiesOfKey(MatrixKey(strategies)) == strategies
  {
    MatrixKeySplit(strategies);
    EverySecondNames(SplitOnSpace(MatrixKey(strategies)), strategies);
  }

  /** Two rows share a key only when they list the same strategies in the same order. */
  lemma MatrixKeyInjective(a: seq<string>, b: seq<string>)
    requires |a| > 0 && forall s :: s in a ==> IsToken(s)
    requires |b| > 0 && forall s :: s in b ==> IsToken(s)
    requires MatrixKey(a) == MatrixKey(b)
    ensures a == b
  {
    MatrixKeyStrategies(a);
    MatrixKeyStrategies(b);
  }

  /** Every strategy of the row adds one, so counts listed over any enumeration of the strategies add up to the row's length. */
  lemma {:induction false} TallyTotalAnyOrder(names: seq<string>, ks: seq<string>)
    requires Distinct(ks) && forall x :: x in names ==> x in ks
    ensures CountTotal(ks, Tally(names)) == |names|
  {
    if |names| == 0 {
      CountTotalEmpty(ks);
    } else {
      var init := names[..|names| - 1];
      var x := names[|names| - 1];
      assert forall y :: y in init ==> y in names;
      TallyTotalAnyOrder(init, ks);
      var m := Tally(init);
      if x in m {
        CountTotalBump(ks, m, x);
      } else {
        CountTotalInsert(ks, m, x);
      }
    }
  }

  lemma {:induction false} CountTotalEmpty(ks: seq<string>)
    ensures CountTotal(ks, map[]) == 0
  {
    if |ks| > 0 {
      CountTotalEmpty(ks[..|ks| - 1]);
    }
  }

  lemma {:induction false} CountTotalInsert(ks: seq<string>, m: map<string, int>, x: string)
    requires Distinct(ks) && x in ks && x !in m
    ensures CountTotal(ks, m[x := 1]) == CountTotal(ks, m) + 1
  {
    var init := ks[..|ks| - 1];
    var last := ks[|ks| - 1];
    assert ks == init + [last];
    if last == x {
      assert x !in init;
      CountTotalAgree(init, m, m[x := 1]);
    } else {
      assert x in init;
      CountTotalInsert(init, m, x);
    }
  }

  // ---------------------------------------------------------------------
  // The game read from the file

  /** originalGame and originalGameStrategyCounts. */
  datatype Game = Game(payoffs: map<string, map<string, real>>, counts: map<string, map<string, int>>)

  /** Both puts for one row: the row's key now maps to its payoffs and its strategy counts. */
  function Record(g: Game, row: Row): Game {
    var key := MatrixKey(row.strategies);
    Game(g.payoffs[key := row.payoffs], g.counts[key := Tally(row.strategies)])
  }

  /** The maps after the rows, in file order. */
  function BuildGame(rows: seq<Row>): Game {
    if |rows| == 0 then Game(map[], map[]) else Record(BuildGame(rows[..|rows| - 1]), rows[|rows| - 1])
  }

  /** The rows of the lines up to the first one that trims to "];", or None when a line throws. */
  function ReadRows(ls: seq<string>, toReal: string -> Option<real>): Option<seq<Row>>
    decreases |ls|
  {
    if |ls| == 0 || Trim(ls[0]) == END_OF_MATRIX then Some([])
    else
      match ParseLine(ls[0], toReal)
      case Failed => None
      case Skipped => ReadRows(ls[1..], toReal)
      case Parsed(row) =>
        var rest := ReadRows(ls[1..], toReal);
        if rest.None? then None else Some([row] + rest.value)
  }

  /** The lines after the 18 discarded ones; readLine gives null at the end of the file. */
  function Body(lines: seq<string>): seq<string> {
    if |lines| <= HEADER_LINES then [] else lines[HEADER_LINES..]
  }

  function ReadGame(lines: seq<string>, toReal: string -> Option<real>): Option<Game> {
    var rows := ReadRows(Body(lines), toReal);
    if rows.None? then None else Some(BuildGame(rows.value))
  }

  /** What comes after the line that ends the matrix is never read. */
  lemma {:induction false} EndOfMatrixStops(pre: seq<string>, t: string, rest: seq<string>, toReal: string -> Option<real>)
    requires Trim(t) == END_OF_MATRIX
    ensures ReadRows(pre + [t] + rest, toReal) == ReadRows(pre, toReal)
    decreases |pre|
  {
    var ls := pre + [t] + rest;
    if |pre| == 0 {
      assert ls[0] == t;
    } else if Trim(pre[0]) != END_OF_MATRIX {
      assert ls[0] == pre[0];
      assert ls[1..] == pre[1..] + [t] + rest;
      EndOfMatrixStops(pre[1..], t, rest, toReal);
    } else {
      assert ls[0] == pre[0];
    }
  }

  /** The preamble's content does not matter. */
  lemma HeaderDiscarded(h: seq<string>, h': seq<string>, ls: seq<string>, toReal: string -> Option<real>)
    requires |h| == |h'| == HEADER_LINES
    ensures ReadGame(h + ls, toReal) == ReadGame(h' + ls, toReal)
  {
    if |ls| > 0 {
      assert (h + ls)[HEADER_LINES..] == ls == (h' + ls)[HEADER_LINES..];
    }
  }

  /** A line whose first invalid position holds an id outside the table is dropped and changes nothing. */
  lemma UnknownIdLineDropped(l: string, rest: seq<string>, toReal: string -> Option<real>)
    requires Trim(l) != END_OF_MATRIX
    requires var f := FirstInvalid(Tokens(l), toReal, 0); f < PLAYERS && UnknownIdAt(Tokens(l), f)
    ensures ReadRows([l] + rest, toReal) == ReadRows(rest, toReal)
  {
    LineOutcome(Tokens(l), toReal, 0, [], map[]);
    assert ([l] + rest)[1..] == rest;
  }

  /** Any other invalid position makes the program throw, so there is no game. */
  lemma MalformedLineFails(l: string, rest: seq<string>, toReal: string -> Option<real>)
    requires Trim(l) != END_OF_MATRIX
    requires var f := FirstInvalid(Tokens(l), toReal, 0); f < PLAYERS && !UnknownIdAt(Tokens(l), f)
    ensures ReadRows([l] + rest, toReal).None?
  {
    LineOutcome(Tokens(l), toReal, 0, [], map[]);
  }

  /** Every row read is well formed. */
  lemma {:induction false} ReadRowsWellFormed(ls: seq<string>, toReal: string -> Option<real>)
    requires ReadRows(ls, toReal).Some?
    ensures forall i :: 0 <= i < |ReadRows(ls, toReal).value| ==> WellFormedRow(ReadRows(ls, toReal).value[i])
    decreases |ls|
  {
    if |ls| > 0 && Trim(ls[0]) != END_OF_MATRIX {
      var line := ParseLine(ls[0], toReal);
      var rest := ReadRows(ls[1..], toReal);
      assert rest.Some?;
      ReadRowsWellFormed(ls[1..], toReal);
      if line.Parsed? {
        assert WellFormedRow(line.row) by { ParsedLine(ls[0], toReal); }
        var r := [line.row] + rest.value;
        assert ReadRows(ls, toReal).value == r;
        forall i | 0 <= i < |r| ensures WellFormedRow(r[i]) {
          if 0 < i { assert r[i] == rest.value[i - 1]; }
        }
      } else {
        assert ReadRows(ls, toReal) == rest;
      }
    }
  }

  /** The index of the last row with the given key. */
  function LastWith(rows: seq<Row>, key: string): (r: Option<nat>)
    ensures r.Some? ==> r.value < |rows| && MatrixKey(rows[r.value].strategies) == key
    ensures r.Some? ==> forall j :: r.value < j < |rows| ==> MatrixKey(rows[j].strategies) != key
    ensures r.None? ==> forall j :: 0 <= j < |rows| ==> MatrixKey(rows[j].strategies) != key
  {
    if |rows| == 0 then None
    else if MatrixKey(rows[|rows| - 1].strategies) == key then Some(|rows| - 1)
    else LastWith(rows[..|rows| - 1], key)
  }

  /** A later row with the same key overwrites the earlier one: each key holds what its last row put. */
  lemma {:induction false} LaterRowWins(rows: seq<Row>, key: string)
    ensures key in BuildGame(rows).payoffs <==> LastWith(rows, key).Some?
    ensures key in BuildGame(rows).counts <==> LastWith(rows, key).Some?
    ensures LastWith(rows, key).Some? ==>
      && BuildGame(rows).payoffs[key] == rows[LastWith(rows, key).value].payoffs
      && BuildGame(rows).counts[key] == Tally(rows[LastWith(rows, key).value].strategies)
  {
    if |rows| > 0 {
      var init := rows[..|rows| - 1];
      LaterRowWins(init, key);
      if MatrixKey(rows[|rows| - 1].strategies) != key {
        assert LastWith(rows, key) == LastWith(init, key);
        if LastWith(init, key).Some? {
          assert rows[LastWith(init, key).value] == init[LastWith(init, key).value];
        }
      }
    }
  }

  /**
   * The two maps agree: the same keys, and under each key the strategies
   * that the key names, their counts, and a payoff for each of them.
   */
  ghost predicate Consistent(g: Game) {
    && g.payoffs.Keys == g.counts.Keys
    && forall key :: key in g.counts ==> KeyConsistent(key, g.counts[key], g.payoffs[key])
  }

  /** The counts and payoffs stored under key are for the strategies that key names. */
  ghost predicate KeyConsistent(key: string, counts: map<string, int>, payoffs: map<string, real>) {
    var s := StrategiesOfKey(key);
    && |s| == PLAYERS
    && counts == Tally(s)
    && (forall n :: n in counts <==> n in s)
    && (forall n :: n in payoffs <==> n in s)
  }

  lemma {:induction false} BuildGameConsistent(rows: seq<Row>)
    requires forall i :: 0 <= i < |rows| ==> WellFormedRow(rows[i])
    ensures Consistent(BuildGame(rows))
  {
    if |rows| > 0 {
      var init, row := rows[..|rows| - 1], rows[|rows| - 1];
      assert forall i :: 0 <= i < |init| ==> init[i] == rows[i];
      BuildGameConsistent(init);
      RecordConsistent(BuildGame(init), row);
    }
  }

  /** A well-formed row's key names the row's strategies. */
  lemma NewKeyConsistent(row: Row)
    requires WellFormedRow(row)
    ensures KeyConsistent(MatrixKey(row.strategies), Tally(row.strategies), row.payoffs)
  {
    NamesAreTokens();
    MatrixKeyStrategies(row.strategies);
    TallyCounts(row.strategies);
  }

  lemma RecordConsistent(g: Game, row: Row)
    requires Consistent(g) && WellFormedRow(row)
    ensures Consistent(Record(g, row))
  {
    NewKeyConsistent(row);
    StoreConsistent(g, MatrixKey(row.strategies), Tally(row.strategies), row.payoffs);
  }

  /** Storing a consistent entry under its key keeps the maps consistent. */
  lemma StoreConsistent(g: Game, key: string, c: map<string, int>, p: map<string, real>)
    requires Consistent(g) && KeyConsistent(key, c, p)
    ensures Consistent(Game(g.payoffs[key := p], g.counts[key := c]))
  {
    var payoffs, counts := g.payoffs[key := p], g.counts[key := c];
    assert payoffs.Keys == g.payoffs.Keys + {key} == counts.Keys;
    forall k | k in counts ensures KeyConsistent(k, counts[k], payoffs[k]) {
      if k == key {
        assert counts[k] == c && payoffs[k] == p;
      } else {
        assert counts[k] == g.counts[k] && payoffs[k] == g.payoffs[k];
      }
    }
  }

  lemma ReadGameConsistent(lines: seq<string>, toReal: string -> Option<real>)
    requires ReadGame(lines, toReal).Some?
    ensures Consistent(ReadGame(lines, toReal).value)
  {
    ReadRowsWellFormed(Body(lines), toReal);
    BuildGameConsistent(ReadRows(Body(lines), toReal).value);
  }

  // ---------------------------------------------------------------------
  // The JSON

  /**
   * HashMap iteration order, which the model takes as given: order lists
   * originalGame's keys once each, and listing[key] the keys of that
   * profile's payoffMap once each.
   */
  ghost predicate Listed(g: Game, order: seq<string>, listing: map<string, seq<string>>) {
    && Distinct(order)
    && (forall k :: k in order <==> k in g.payoffs)
    && forall k :: k in g.payoffs ==>
         k in listing && Distinct(listing[k]) && forall n :: n in listing[k] <==> n in g.payoffs[k]
  }

  /** One profile's strategy objects: the counts and payoffs stored under its key, std always 0. */
  function MatrixStrategies(g: Game, key: string, names: seq<string>, show: real -> string): (r: seq<StrategyEntry>)
    requires key in g.payoffs && key in g.counts
    requires forall n :: n in names ==> n in g.payoffs[key] && n in g.counts[key]
    ensures |r| == |names|
  {
    seq(|names|, i requires 0 <= i < |names| =>
      StrategyEntry(names[i], g.counts[key][names[i]], show(g.payoffs[key][names[i]]), "0"))
  }

  /** The profile objects in iteration order, each with sample_count 1. */
  function MatrixEntries(g: Game, order: seq<string>, listing: map<string, seq<string>>, show: real -> string): (r: seq<ProfileEntry>)
    requires Consistent(g) && Listed(g, order, listing)
    ensures |r| == |order|
  {
    seq(|order|, j requires 0 <= j < |order| => ProfileEntry(1, MatrixStrategies(g, order[j], listing[order[j]], show)))
  }

  /** The output file, or None when reading the matrix throws. */
  function MatrixOutput(lines: seq<string>, toReal: string -> Option<real>, show: real -> string,
                        order: seq<string>, listing: map<string, seq<string>>): Option<string>
    requires ReadGame(lines, toReal).Some? ==> Listed(ReadGame(lines, toReal).value, order, listing)
  {
    var g := ReadGame(lines, toReal);
    if g.None? then None
    else
      ReadGameConsistent(lines, toReal);
      Some(GameText(MatrixHeader, MatrixEntries(g.value, order, listing, show)))
  }

  /** The sum of the printed counts. */
  function PrintedCountTotal(es: seq<StrategyEntry>): int {
    if |es| == 0 then 0 else PrintedCountTotal(es[..|es| - 1]) + es[|es| - 1].count
  }

  lemma {:induction false} PrintedCountsAreCountTotal(g: Game, key: string, names: seq<string>, show: real -> string)
    requires key in g.payoffs && key in g.counts
    requires forall n :: n in names ==> n in g.payoffs[key] && n in g.counts[key]
    ensures PrintedCountTotal(MatrixStrategies(g, key, names, show)) == CountTotal(names, g.counts[key])
  {
    if |names| > 0 {
      var init := names[..|names| - 1];
      PrintedCountsAreCountTotal(g, key, init, show);
      assert MatrixStrategies(g, key, names, show)[..|init|] == MatrixStrategies(g, key, init, show);
    }
  }

  /**
   * Every profile object has sample_count 1, payoff_std 0 for each
   * strategy, and counts that add up to the four positions of its row.
   */
  lemma MatrixEntriesLayout(g: Game, order: seq<string>, listing: map<string, seq<string>>, show: real -> string, j: int)
    requires Consistent(g) && Listed(g, order, listing) && 0 <= j < |order|
    ensures var e := MatrixEntries(g, order, listing, show)[j];
      && e.sampleCount == 1
      && (forall i :: 0 <= i < |e.strategies| ==> e.strategies[i].std == "0")
      && PrintedCountTotal(e.strategies) == PLAYERS
  {
    var key := order[j];
    var names := listing[key];
    PrintedCountsAreCountTotal(g, key, names, show);
    TallyTotalAnyOrder(StrategiesOfKey(key), names);
  }

  // ---------------------------------------------------------------------
  // The program

  /** while (line.contains("  ")) line = line.replace("  ", " "). */
  method CleanUp(line: string) returns (r: string)
    ensures r == SquashSpaces(line)
    ensures !HasDoubleSpace(r)
  {
    r := line;
    while HasDoubleSpace(r)
      invariant SquashSpaces(r) == SquashSpaces(line)
      decreases |r|
    {
      SquashAfterReplace(r);
      r := ReplaceDoubleSpace(r);
    }
    SquashWithoutDoubleSpace(r);
  }

  /** The loop over the four positions, with its labelled continue. */
  method ConvertLine(split: seq<string>, toReal: string -> Option<real>) returns (res: LineResult)
    ensures res == ConvertFrom(split, toReal, 0, [], map[])
  {
    var strategies := new string[PLAYERS];
    var payoffMap: map<string, real> := map[];
    ghost var goal := ConvertFrom(split, toReal, 0, [], map[]);
    ghost var names: seq<string> := [];
    for i := 0 to PLAYERS
      invariant strategies[..i] == names
      invariant goal == ConvertFrom(split, toReal, i, names, payoffMap)
    {
      if i >= |split| {
        return Failed;
      }
      var strategyID := ParseInt(split[i]);
      if strategyID.None? {
        return Failed;
      }
      var name := StrategyName(strategyID.value);
      if name.None? {
        return Skipped;
      }
      strategies[i] := name.value;
      assert strategies[..i + 1] == names + [name.value];
      if i + PLAYERS >= |split| {
        return Failed;
      }
      var payoff := toReal(split[i + PLAYERS]);
      if payoff.None? {
        return Failed;
      }
      names := names + [name.value];
      payoffMap := payoffMap[name.value := payoff.value];
    }
    assert strategies[..PLAYERS] == strategies[..];
    res := Parsed(Row(strategies[..], payoffMap));
  }

  /** strategyCount: one more for each position's strategy. */
  method CountStrategies(strategies: seq<string>) returns (strategyCount: map<string, int>)
    ensures strategyCount == Tally(strategies)
  {
    strategyCount := map[];
    for i := 0 to |strategies|
      invariant strategyCount == Tally(strategies[..i])
    {
      assert strategies[..i + 1][..i] == strategies[..i];
      var s := strategies[i];
      if s !in strategyCount {
        strategyCount := strategyCount[s := 1];
      } else {
        strategyCount := strategyCount[s := strategyCount[s] + 1];
      }
    }
    assert strategies[..|strategies|] == strategies;
  }

  /** profileBuilder filled two entries per position, then Utils.join on a space. */
  method BuildMatrixKey(strategies: seq<string>, strategyCount: map<string, int>) returns (profileID: string)
    requires |strategies| > 0 && forall s :: s in strategies ==> s in strategyCount
    ensures profileID == Joined(MatrixKeyTokens(strategies, strategyCount), " ")
  {
    var profileBuilder := new string[2 * |strategies|];
    var count := 0;
    for j := 0 to |strategies|
      invariant count == 2 * j
      invariant profileBuilder[..count] == MatrixKeyTokens(strategies[..j], strategyCount)
    {
      ghost var before := profileBuilder[..count];
      profileBuilder[count] := IntToString(strategyCount[strategies[j]]);
      count := count + 1;
      profileBuilder[count] := strategies[j];
      count := count + 1;
      assert profileBuilder[..count] == before + [IntToString(strategyCount[strategies[j]]), strategies[j]];
      assert strategies[..j + 1][..j] == strategies[..j];
    }
    assert strategies[..|strategies|] == strategies;
    var tokens := MatrixKeyTokens(strategies, strategyCount);
    assert profileBuilder[..] == profileBuilder[..count] == tokens;
    AppendedIsJoinedThenSeparator(tokens, " ");
    profileID := Join(profileBuilder[..], " ");
  }

  /** The body of the line loop for a row: count, build the key, and put into both maps. */
  method RecordRow(originalGame: map<string, map<string, real>>, originalGameStrategyCounts: map<string, map<string, int>>,
                   row: Row)
    returns (game': map<string, map<string, real>>, counts': map<string, map<string, int>>)
    requires |row.strategies| == PLAYERS
    ensures Game(game', counts') == Record(Game(originalGame, originalGameStrategyCounts), row)
  {
    var strategyCount := CountStrategies(row.strategies);
    TallyCounts(row.strategies);
    var profileID := BuildMatrixKey(row.strategies, strategyCount);
    counts' := originalGameStrategyCounts[profileID := strategyCount];
    game' := originalGame[profileID := row.payoffs];
  }

  /** The rows seen so far followed by what the rest of the lines give. */
  function Prepended(rows: seq<Row>, rest: Option<seq<Row>>): Option<seq<Row>> {
    if rest.None? then None else Some(rows + rest.value)
  }

  /** The 18 calls of in.readLine() that throw the preamble away. */
  method SkipHeader(lines: seq<string>) returns (next: nat)
    ensures next <= |lines| && lines[next..] == Body(lines)
  {
    next := 0;
    for i := 0 to HEADER_LINES
      invariant next == if i <= |lines| then i else |lines|
    {
      if next < |lines| {
        next := next + 1;
      }
    }
  }

  /** Reads the preamble and the rows into originalGame and originalGameStrategyCounts. */
  method ReadMatrix(lines: seq<string>, toReal: string -> Option<real>) returns (game: Option<Game>)
    ensures game == ReadGame(lines, toReal)
  {
    var next := SkipHeader(lines);
    if ReadRows(Body(lines), toReal).Some? {
      assert [] + ReadRows(Body(lines), toReal).value == ReadRows(Body(lines), toReal).value;
    }
    var originalGame: map<string, map<string, real>> := map[];
    var originalGameStrategyCounts: map<string, map<string, int>> := map[];
    ghost var rows: seq<Row> := [];
    while next < |lines|
      invariant next <= |lines|
      invariant ReadRows(Body(lines), toReal) == Prepended(rows, ReadRows(lines[next..], toReal))
      invariant Game(originalGame, originalGameStrategyCounts) == BuildGame(rows)
      decreases |lines| - next
    {
      var line := Trim(lines[next]);
      if line == END_OF_MATRIX {
        assert ReadRows(lines[next..], toReal) == Some([]);
        assert rows + [] == rows;
        assert ReadRows(Body(lines), toReal) == Some(rows);
        break;
      }
      line := CleanUp(line);
      var split := SplitOnSpace(line);
      var res := ConvertLine(split, toReal);
      LineStep(lines, next, rows, toReal);
      next := next + 1;
      if res.Failed? {
        assert ReadRows(Body(lines), toReal) == None;
        return None;
      }
      if res.Parsed? {
        ParsedLine(lines[next - 1], toReal);
        originalGame, originalGameStrategyCounts := RecordRow(originalGame, originalGameStrategyCounts, res.row);
        assert (rows + [res.row])[..|rows|] == rows;
        rows := rows + [res.row];
      }
    }
    if next == |lines| {
      assert lines[next..] == [];
      assert rows + [] == rows;
    }
    assert ReadRows(Body(lines), toReal) == Some(rows);
    game := Some(Game(originalGame, originalGameStrategyCounts));
  }

  /** Reading line next, which does not end the matrix, takes the rest of the lines one line further. */
  lemma LineStep(lines: seq<string>, next: nat, rows: seq<Row>, toReal: string -> Option<real>)
    requires next < |lines| && Trim(lines[next]) != END_OF_MATRIX
    ensures var r := ParseLine(lines[next], toReal);
      var after := ReadRows(lines[next + 1..], toReal);
      && (r.Failed? ==> Prepended(rows, ReadRows(lines[next..], toReal)).None?)
      && (r.Skipped? ==> Prepended(rows, ReadRows(lines[next..], toReal)) == Prepended(rows, after))
      && (r.Parsed? ==> Prepended(rows, ReadRows(lines[next..], toReal)) == Prepended(rows + [r.row], after))
  {
    var ls := lines[next..];
    assert ls[0] == lines[next] && ls[1..] == lines[next + 1..];
    var r := ParseLine(lines[next], toReal);
    if r.Parsed? {
      PrependRow(rows, r.row, ReadRows(lines[next + 1..], toReal));
    }
  }

  lemma PrependRow(rows: seq<Row>, row: Row, after: Option<seq<Row>>)
    ensures Prepended(rows, if after.None? then None else Some([row] + after.value)) == Prepended(rows + [row], after)
  {
    if after.Some? {
      assert rows + ([row] + after.value) == (rows + [row]) + after.value;
    }
  }

  /** The whole program: read the matrix, then print the game JSON. */
  method ConvertPayoffMatrix(lines: seq<string>, toReal: string -> Option<real>, show: real -> string,
                             order: seq<string>, listing: map<string, seq<string>>) returns (out: Option<string>)
    requires ReadGame(lines, toReal).Some? ==> Listed(ReadGame(lines, toReal).value, order, listing)
    ensures out == MatrixOutput(lines, toReal, show, order, listing)
  {
    var game := ReadMatrix(lines, toReal);
    if game.None? {
      return None;
    }
    ReadGameConsistent(lines, toReal);
    var text := WriteGame(MatrixHeader, MatrixEntries(game.value, order, listing, show));
    out := Some(text);
  }
}
