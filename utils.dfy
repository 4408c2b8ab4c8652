/**
 * Utils.join: the pieces are appended to a buffer, each followed by the
 * separator, and then a second loop deletes one character per separator
 * character, at position length - i - 1 of the current buffer.
 */
module Utils {
  import opened JavaStrings

  /** The intended result: s[0] + sep + s[1] + ... + sep + s[n-1]; empty for no pieces. */
  function Joined(s: seq<string>, sep: string): string {
    if |s| == 0 then ""
    else if |s| == 1 then s[0]
    else Joined(s[..|s| - 1], sep) + sep + s[|s| - 1]
  }

  /** What the append loop leaves in the buffer: s[i] followed by the separator, for every i in order. */
  function Appended(s: seq<string>, sep: string): string {
    if |s| == 0 then "" else Appended(s[..|s| - 1], sep) + s[|s| - 1] + sep
  }

  /** Joining one more piece: the piece itself at first, then a separator and the piece. */
  lemma JoinedStep(s: seq<string>, sep: string, i: int)
    requires 0 <= i < |s|
    ensures Joined(s[..i + 1], sep) == if i == 0 then s[0] else Joined(s[..i], sep) + sep + s[i]
  {
    assert s[..i + 1][..i] == s[..i];
  }

  /** The plain concatenation of the pieces. */
  function Concat(s: seq<string>): string {
    if |s| == 0 then "" else Concat(s[..|s| - 1]) + s[|s| - 1]
  }

  function TotalLength(s: seq<string>): nat {
    if |s| == 0 then 0 else TotalLength(s[..|s| - 1]) + |s[|s| - 1]|
  }

  /** StringBuilder.deleteCharAt(k). */
  function DeleteAt(buf: string, k: int): (r: string)
    requires 0 <= k < |buf|
    ensures |r| == |buf| - 1
    ensures r[..k] == buf[..k] && r[k..] == buf[k + 1..]
  {
    buf[..k] + buf[k + 1..]
  }

  /**
   * The delete loop from step i to step n - 1: step j removes the character
   * at index length - j - 1 of the buffer it finds.  The source throws
   * StringIndexOutOfBoundsException unless every such index is at least 0,
   * which is what the precondition says.
   */
  function DeleteLoop(buf: string, i: nat, n: nat): (r: string)
    requires i >= n || |buf| + i >= 2 * n - 1
    ensures |r| == if i >= n then |buf| else |buf| - (n - i)
    decreases n - i
  {
    if i >= n then buf else DeleteLoop(DeleteAt(buf, |buf| - i - 1), i + 1, n)
  }

  /** The source's join as written, for any separator the delete loop can run on. */
  function JoinAsWritten(s: seq<string>, sep: string): string
    requires |sep| == 0 || |Appended(s, sep)| >= 2 * |sep| - 1
  {
    DeleteLoop(Appended(s, sep), 0, |sep|)
  }

  /** Utils.join. */
  method Join(s: seq<string>, sep: string) returns (r: string)
    requires |sep| == 0 || |Appended(s, sep)| >= 2 * |sep| - 1
    ensures r == JoinAsWritten(s, sep)
    ensures |sep| <= 1 ==> r == Joined(s, sep)
    ensures |sep| == 0 ==> r == Concat(s)
  {
    var buf := "";
    var i := 0;
    while i < |s|
      invariant 0 <= i <= |s|
      invariant buf == Appended(s[..i], sep)
    {
      assert s[..i + 1][..i] == s[..i];
      buf := buf + s[i];
      buf := buf + sep;
      i := i + 1;
    }
    assert s[..|s|] == s;
    var j := 0;
    while j < |sep|
      invariant 0 <= j <= |sep|
      invariant j >= |sep| || |buf| + j >= 2 * |sep| - 1
      invariant DeleteLoop(buf, j, |sep|) == JoinAsWritten(s, sep)
    {
      buf := buf[..|buf| - j - 1] + buf[|buf| - j..];
      j := j + 1;
    }
    r := buf;
    if |sep| <= 1 {
      JoinAsWrittenOneChar(s, sep);
    }
    if |sep| == 0 {
      JoinedEmptySeparator(s);
    }
  }

  /** Before the delete loop the buffer is the joined string followed by one separator. */
  lemma {:induction false} AppendedIsJoinedThenSeparator(s: seq<string>, sep: string)
    requires |s| > 0
    ensures Appended(s, sep) == Joined(s, sep) + sep
  {
    if |s| > 1 {
      var p := s[..|s| - 1];
      AppendedIsJoinedThenSeparator(p, sep);
      assert Appended(s, sep) == Joined(p, sep) + sep + s[|s| - 1] + sep;
    }
  }

  /** With a separator of at most one character the source's join is the intended join. */
  lemma JoinAsWrittenOneChar(s: seq<string>, sep: string)
    requires |sep| <= 1
    requires |sep| == 0 || |Appended(s, sep)| >= 2 * |sep| - 1
    ensures JoinAsWritten(s, sep) == Joined(s, sep)
  {
    if |s| > 0 {
      AppendedIsJoinedThenSeparator(s, sep);
      var buf := Appended(s, sep);
      if |sep| == 1 {
        assert DeleteLoop(buf, 0, 1) == DeleteLoop(DeleteAt(buf, |buf| - 1), 1, 1);
        assert DeleteAt(buf, |buf| - 1) == buf[..|buf| - 1];
      } else {
        assert Joined(s, sep) + sep == Joined(s, sep);
      }
    }
  }

  /** With an empty separator the join is the plain concatenation. */
  lemma {:induction false} JoinedEmptySeparator(s: seq<string>)
    ensures Joined(s, "") == Concat(s)
  {
    if |s| > 1 {
      var p := s[..|s| - 1];
      JoinedEmptySeparator(p);
      assert Joined(s, "") == Joined(p, "") + s[|s| - 1];
    } else if |s| == 1 {
      assert Concat(s) == Concat(s[..0]) + s[0];
    }
  }

  /** The joined string has every piece's characters and one separator between neighbours. */
  lemma {:induction false} JoinedLength(s: seq<string>, sep: string)
    requires |s| > 0
    ensures |Joined(s, sep)| == TotalLength(s) + (|s| - 1) * |sep|
  {
    if |s| > 1 {
      JoinedLength(s[..|s| - 1], sep);
    } else {
      assert TotalLength(s) == TotalLength(s[..0]) + |s[0]|;
    }
  }

  /**
   * The evidently intended join for any separator: the append loop's
   * buffer without its last |sep| characters.
   */
  function JoinCorrected(s: seq<string>, sep: string): (r: string)
    ensures |s| > 0 ==> r == Joined(s, sep)
  {
    var buf := Appended(s, sep);
    if |s| == 0 then ""
    else
      AppendedIsJoinedThenSeparator(s, sep);
      buf[..|buf| - |sep|]
  }

  /** As written, a two-character separator deletes the wrong characters: ["a", "b"] joined by ", " gives "a, ,". */
  lemma JoinTwoCharSeparator()
    ensures |Appended(["a", "b"], ", ")| >= 2 * |", "| - 1
    ensures JoinAsWritten(["a", "b"], ", ") == "a, ,"
    ensures Joined(["a", "b"], ", ") == "a, b"
    ensures JoinCorrected(["a", "b"], ", ") == "a, b"
  {
    var s := ["a", "b"];
    assert s[..1] == ["a"];
    assert Appended(["a"], ", ") == "a, " by {
      assert ["a"][..0] == [];
    }
    var buf := Appended(s, ", ");
    assert buf == "a, b, ";
    assert DeleteAt(buf, 5) == "a, b,";
    assert DeleteAt("a, b,", 3) == "a, ,";
    assert JoinAsWritten(s, ", ") == DeleteLoop(DeleteAt(DeleteAt(buf, 5), 3), 2, 2);
    assert Joined(s, ", ") == Joined(["a"], ", ") + ", " + "b";
  }

  /** Splitting at a space distributes over the pieces on either side of it. */
  lemma {:induction false} PiecesAroundSpace(x: string, b: string)
    ensures Pieces(x + [' '] + b) == Pieces(x) + Pieces(b)
    decreases |x|
  {
    if x == [] {
      assert (x + [' '] + b)[1..] == b;
    } else {
      var t := x + [' '] + b;
      assert t[1..] == x[1..] + [' '] + b;
      PiecesAroundSpace(x[1..], b);
    }
  }

  lemma {:induction false} PiecesOfWord(w: string)
    requires ' ' !in w
    ensures Pieces(w) == [w]
    decreases |w|
  {
    if w != [] {
      assert ' ' !in w[1..];
      PiecesOfWord(w[1..]);
      assert w == [w[0]] + w[1..];
    }
  }

  /** Names that contain no space and are not empty survive a join on " " and a split on " ". */
  lemma {:induction false} SplitJoined(ts: seq<string>)
    requires |ts| > 0
    requires forall i :: 0 <= i < |ts| ==> |ts[i]| > 0 && ' ' !in ts[i]
    ensures SplitOnSpace(Joined(ts, " ")) == ts
  {
    PiecesOfJoined(ts);
    if |ts| > 1 {
      var p := ts[..|ts| - 1];
      assert Joined(ts, " ")[|Joined(p, " ")|] == ' ';
    } else {
      assert Joined(ts, " ") == ts[0];
    }
  }

  lemma {:induction false} PiecesOfJoined(ts: seq<string>)
    requires |ts| > 0
    requires forall i :: 0 <= i < |ts| ==> ' ' !in ts[i]
    ensures Pieces(Joined(ts, " ")) == ts
  {
    var last := ts[|ts| - 1];
    PiecesOfWord(last);
    if |ts| > 1 {
      var p := ts[..|ts| - 1];
      PiecesOfJoined(p);
      PiecesAroundSpace(Joined(p, " "), last);
      assert Joined(ts, " ") == Joined(p, " ") + [' '] + last;
      assert ts == p + [last];
    }
  }
}
