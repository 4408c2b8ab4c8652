/**
 * The behaviour of the java.lang.String and java.lang.Integer operations that
 * the programs rely on: decimal rendering and parsing of int, trim, split on a
 * single space, contains/replace of a double space, and compareTo.
 */
module JavaStrings {
  import opened Wrappers

  const INT_MIN: int := -0x8000_0000
  const INT_MAX: int := 0x7fff_ffff

  predicate IsDigit(c: char) {
    '0' <= c <= '9'
  }

  predicate AllDigits(s: string) {
    forall i :: 0 <= i < |s| ==> IsDigit(s[i])
  }

  function DigitChar(d: nat): (c: char)
    requires d < 10
    ensures IsDigit(c) && (c as int) - ('0' as int) == d
  {
    ('0' as int + d) as char
  }

  /** The decimal digits of n, most significant first, with no leading zero. */
  function NatToString(n: nat): (s: string)
    ensures |s| > 0 && AllDigits(s)
    ensures s[0] == '0' ==> n == 0
    decreases n
  {
    if n < 10 then [DigitChar(n)] else NatToString(n / 10) + [DigitChar(n % 10)]
  }

  /** String.valueOf(int): a minus sign for negative numbers, then the digits. */
  function IntToString(i: int): (s: string)
    ensures |s| > 0 && ' ' !in s
    ensures (s[0] == '-') <==> i < 0
  {
    if i < 0 then "-" + NatToString(-i) else NatToString(i)
  }

  /** The value of a string of decimal digits. */
  function DigitsValue(s: string): nat
    requires AllDigits(s)
  {
    if s == [] then 0 else DigitsValue(s[..|s| - 1]) * 10 + ((s[|s| - 1] as int) - ('0' as int))
  }

  lemma {:induction false} DigitsValueOfNatToString(n: nat)
    ensures DigitsValue(NatToString(n)) == n
    decreases n
  {
    if n >= 10 {
      DigitsValueOfNatToString(n / 10);
      var s := NatToString(n);
      assert s[..|s| - 1] == NatToString(n / 10);
    }
  }

  /**
   * Integer.valueOf(String): an optional '+' or '-', then at least one decimal
   * digit, and a value that fits in 32 bits; anything else is a
   * NumberFormatException, here None.
   */
  function ParseInt(s: string): (r: Option<int>)
    ensures r.Some? ==> INT_MIN <= r.value <= INT_MAX
    ensures r.Some? ==> |s| > 0 && (s[0] == '-' ==> r.value <= 0)
  {
    var signed := |s| > 0 && (s[0] == '-' || s[0] == '+');
    var digits := if signed then s[1..] else s;
    if |digits| == 0 || !AllDigits(digits) then None
    else
      var d: int := DigitsValue(digits);
      var v := if |s| > 0 && s[0] == '-' then -d else d;
      if INT_MIN <= v <= INT_MAX then Some(v) else None
  }

  /** Reading back what String.valueOf(int) wrote gives the same int. */
  lemma IntToStringRoundTrip(i: int)
    requires INT_MIN <= i <= INT_MAX
    ensures ParseInt(IntToString(i)) == Some(i)
  {
    var s := IntToString(i);
    if i < 0 {
      assert s[1..] == NatToString(-i);
      DigitsValueOfNatToString(-i);
    } else {
      DigitsValueOfNatToString(i);
    }
  }

  /** A character that String.trim removes: any code at or below the space. */
  predicate IsTrimmed(c: char) {
    c <= ' '
  }

  function TrimStart(s: string): (r: string)
    ensures |r| <= |s| && r == s[|s| - |r|..]
    ensures |r| > 0 ==> !IsTrimmed(r[0])
    ensures forall i :: 0 <= i < |s| - |r| ==> IsTrimmed(s[i])
  {
    if |s| > 0 && IsTrimmed(s[0]) then TrimStart(s[1..]) else s
  }

  function TrimEnd(s: string): (r: string)
    ensures |r| <= |s| && r == s[..|r|]
    ensures |r| > 0 ==> !IsTrimmed(r[|r| - 1])
    ensures forall i :: |r| <= i < |s| ==> IsTrimmed(s[i])
  {
    if |s| > 0 && IsTrimmed(s[|s| - 1]) then TrimEnd(s[..|s| - 1]) else s
  }

  /** String.trim: the substring left after dropping leading and trailing codes at or below the space. */
  function Trim(s: string): (r: string)
    ensures |r| <= |s|
    ensures |r| > 0 ==> !IsTrimmed(r[0]) && !IsTrimmed(r[|r| - 1])
    ensures (forall i :: 0 <= i < |s| ==> !IsTrimmed(s[i])) ==> r == s
  {
    TrimEnd(TrimStart(s))
  }

  /** line.contains("  ") */
  predicate HasDoubleSpace(s: string) {
    exists i :: 0 <= i < |s| - 1 && s[i] == ' ' && s[i + 1] == ' '
  }

  /** line.replace("  ", " "): left to right, each non-overlapping pair of spaces becomes one space. */
  function ReplaceDoubleSpace(s: string): (r: string)
    ensures |r| <= |s|
    ensures HasDoubleSpace(s) ==> |r| < |s|
    ensures !HasDoubleSpace(s) ==> r == s
    ensures |s| > 0 ==> |r| > 0 && r[0] == s[0]
  {
    if |s| < 2 then s
    else if s[0] == ' ' && s[1] == ' ' then " " + ReplaceDoubleSpace(s[2..])
    else
      assert HasDoubleSpace(s) ==> HasDoubleSpace(s[1..]) by {
        if HasDoubleSpace(s) {
          var i :| 0 <= i < |s| - 1 && s[i] == ' ' && s[i + 1] == ' ';
          assert s[1..][i - 1] == ' ' && s[1..][i] == ' ';
        }
      }
      assert HasDoubleSpace(s[1..]) ==> HasDoubleSpace(s) by {
        if HasDoubleSpace(s[1..]) {
          var i :| 0 <= i < |s[1..]| - 1 && s[1..][i] == ' ' && s[1..][i + 1] == ' ';
          assert s[i + 1] == ' ' && s[i + 2] == ' ';
        }
      }
      [s[0]] + ReplaceDoubleSpace(s[1..])
  }

  /** Reference meaning of the clean-up: every run of spaces shortened to a single space. */
  function SquashSpaces(s: string): string {
    if |s| < 2 then s
    else if s[0] == ' ' && s[1] == ' ' then SquashSpaces(s[1..])
    else [s[0]] + SquashSpaces(s[1..])
  }

  /** A character in front of a string: a space before a leading space merges into it. */
  lemma SquashCons(c: char, t: string)
    ensures SquashSpaces([c] + t) == if c == ' ' && |t| > 0 && t[0] == ' ' then SquashSpaces(t) else [c] + SquashSpaces(t)
  {
    assert ([c] + t)[1..] == t;
  }

  /** Squashing keeps the first character and empties nothing. */
  lemma {:induction false} SquashFirst(s: string)
    ensures |SquashSpaces(s)| > 0 <==> |s| > 0
    ensures |s| > 0 ==> SquashSpaces(s)[0] == s[0]
  {
    if |s| >= 2 && s[0] == ' ' && s[1] == ' ' {
      SquashFirst(s[1..]);
    }
  }

  /** A double space in front of a string is either the first character and the next, or in the string. */
  lemma DoubleSpaceCons(c: char, q: string)
    ensures HasDoubleSpace([c] + q) <==> (c == ' ' && |q| > 0 && q[0] == ' ') || HasDoubleSpace(q)
  {
    var r := [c] + q;
    if c == ' ' && |q| > 0 && q[0] == ' ' {
      assert r[0] == ' ' && r[1] == ' ';
    }
    if HasDoubleSpace(q) {
      var i :| 0 <= i < |q| - 1 && q[i] == ' ' && q[i + 1] == ' ';
      assert r[i + 1] == ' ' && r[i + 2] == ' ';
    }
    if HasDoubleSpace(r) {
      var i :| 0 <= i < |r| - 1 && r[i] == ' ' && r[i + 1] == ' ';
      if i > 0 {
        assert q[i - 1] == ' ' && q[i] == ' ';
      }
    }
  }

  /** A string without a double space is already squashed. */
  lemma {:induction false} SquashWithoutDoubleSpace(s: string)
    requires !HasDoubleSpace(s)
    ensures SquashSpaces(s) == s
  {
    if |s| >= 2 {
      assert !(s[0] == ' ' && s[1] == ' ');
      assert s == [s[0]] + s[1..];
      DoubleSpaceCons(s[0], s[1..]);
      SquashWithoutDoubleSpace(s[1..]);
      assert s == [s[0]] + s[1..];
    }
  }

  /** One pass of replace("  ", " ") does not change what the squashing leads to. */
  lemma {:induction false} SquashAfterReplace(s: string)
    ensures SquashSpaces(ReplaceDoubleSpace(s)) == SquashSpaces(s)
  {
    if |s| >= 2 {
      var t := s[2..];
      var r := ReplaceDoubleSpace(t);
      SquashAfterReplace(t);
      SquashFirst(t);
      if s[0] == ' ' && s[1] == ' ' {
        assert ReplaceDoubleSpace(s) == [' '] + r;
        assert s[1..] == [' '] + t;
        SquashCons(' ', r);
        SquashCons(' ', t);
        if |t| > 0 {
          assert r[0] == t[0];
        }
      } else {
        var u := s[1..];
        var ru := ReplaceDoubleSpace(u);
        SquashAfterReplace(u);
        assert ReplaceDoubleSpace(s) == [s[0]] + ru;
        assert ru[0] == u[0] == s[1];
        SquashCons(s[0], ru);
        SquashCons(s[0], u);
        assert s == [s[0]] + u;
      }
    }
  }

  /** Squashing leaves no two spaces side by side. */
  lemma {:induction false} SquashedHasNoDoubleSpace(s: string)
    ensures !HasDoubleSpace(SquashSpaces(s))
  {
    if |s| >= 2 {
      SquashedHasNoDoubleSpace(s[1..]);
      if !(s[0] == ' ' && s[1] == ' ') {
        var q := SquashSpaces(s[1..]);
        SquashFirst(s[1..]);
        DoubleSpaceCons(s[0], q);
      }
    }
  }

  /** Squashing twice is squashing once. */
  lemma SquashIdempotent(s: string)
    ensures SquashSpaces(SquashSpaces(s)) == SquashSpaces(s)
  {
    SquashedHasNoDoubleSpace(s);
    SquashWithoutDoubleSpace(SquashSpaces(s));
  }

  /** The pieces of s between its spaces: one more piece than s has spaces. */
  function Pieces(s: string): (r: seq<string>)
    ensures |r| > 0
  {
    if s == [] then [""]
    else
      var rest := Pieces(s[1..]);
      if s[0] == ' ' then [""] + rest else [[s[0]] + rest[0]] + rest[1..]
  }

  function DropTrailingEmpty(xs: seq<string>): (r: seq<string>)
    ensures |r| <= |xs| && r == xs[..|r|]
    ensures |r| > 0 ==> r[|r| - 1] != ""
    ensures forall i :: |r| <= i < |xs| ==> xs[i] == ""
  {
    if |xs| > 0 && xs[|xs| - 1] == "" then DropTrailingEmpty(xs[..|xs| - 1]) else xs
  }

  /**
   * s.split(" "): the pieces between spaces with the trailing empty pieces
   * removed; a string without any space is returned whole, even when empty.
   */
  function SplitOnSpace(s: string): seq<string> {
    if ' ' !in s then [s] else DropTrailingEmpty(Pieces(s))
  }

  /** String.compareTo(a, b) < 0: the first differing code decides, and a proper prefix comes first. */
  predicate Less(a: string, b: string)
    decreases |a|
  {
    if |a| == 0 then |b| > 0
    else if |b| == 0 then false
    else if a[0] != b[0] then a[0] < b[0]
    else Less(a[1..], b[1..])
  }

  lemma {:induction false} LessIrreflexive(a: string)
    ensures !Less(a, a)
    decreases |a|
  {
    if |a| > 0 {
      LessIrreflexive(a[1..]);
    }
  }

  lemma {:induction false} LessAsymmetric(a: string, b: string)
    requires Less(a, b)
    ensures !Less(b, a)
    decreases |a|
  {
    if |a| > 0 && |b| > 0 && a[0] == b[0] {
      LessAsymmetric(a[1..], b[1..]);
    }
  }

  lemma {:induction false} LessTransitive(a: string, b: string, c: string)
    requires Less(a, b) && Less(b, c)
    ensures Less(a, c)
    decreases |a|
  {
    if |a| > 0 && |b| > 0 && |c| > 0 && a[0] == b[0] && b[0] == c[0] {
      LessTransitive(a[1..], b[1..], c[1..]);
    }
  }

  lemma {:induction false} LessTotal(a: string, b: string)
    requires a != b
    ensures Less(a, b) || Less(b, a)
    decreases |a|
  {
    if |a| > 0 && |b| > 0 && a[0] == b[0] {
      assert a == [a[0]] + a[1..] && b == [b[0]] + b[1..];
      LessTotal(a[1..], b[1..]);
    }
  }
}
