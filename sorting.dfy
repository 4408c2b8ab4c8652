/**
 * Collections.sort on a list of strategy names, ordered by String.compareTo,
 * and List.indexOf on the sorted list.
 */
module Sorting {
  import opened JavaStrings

  predicate Distinct(xs: seq<string>) {
    forall i, j :: 0 <= i < j < |xs| ==> xs[i] != xs[j]
  }

  predicate StrictlySorted(xs: seq<string>) {
    forall i, j :: 0 <= i < j < |xs| ==> Less(xs[i], xs[j])
  }

  /** Places x after every element of xs that is not greater than it. */
  function Insert(x: string, xs: seq<string>): seq<string> {
    if |xs| == 0 || Less(x, xs[0]) then [x] + xs else [xs[0]] + Insert(x, xs[1..])
  }

  /** The model of Collections.sort: the elements of xs in compareTo order. */
  function SortStrings(xs: seq<string>): seq<string> {
    if |xs| == 0 then [] else Insert(xs[0], SortStrings(xs[1..]))
  }

  /** The loop form of SortStrings: each name, from the last to the first, is inserted into the sorted rest. */
  method SortList(xs: seq<string>) returns (r: seq<string>)
    ensures r == SortStrings(xs)
  {
    r := [];
    var i := |xs|;
    while i > 0
      invariant 0 <= i <= |xs|
      invariant r == SortStrings(xs[i..])
    {
      i := i - 1;
      assert xs[i..][1..] == xs[i + 1..];
      r := Insert(xs[i], r);
    }
  }

  lemma {:induction false} InsertSorted(x: string, xs: seq<string>)
    requires StrictlySorted(xs) && x !in xs
    ensures multiset(Insert(x, xs)) == multiset(xs) + multiset{x}
    ensures StrictlySorted(Insert(x, xs))
  {
    if |xs| == 0 || Less(x, xs[0]) {
      var r := Insert(x, xs);
      forall i, j | 0 <= i < j < |r| ensures Less(r[i], r[j]) {
        if i == 0 && j > 1 {
          LessTransitive(x, xs[0], xs[j - 1]);
        }
      }
    } else {
      LessTotal(x, xs[0]);
      InsertSorted(x, xs[1..]);
      assert xs == [xs[0]] + xs[1..];
      var r := Insert(x, xs);
      var t := Insert(x, xs[1..]);
      assert r == [xs[0]] + t;
      forall j | 0 < j < |r| ensures Less(xs[0], r[j]) {
        assert r[j] in multiset(t);
        assert r[j] == x || r[j] in xs[1..];
      }
    }
  }

  /** Sorting distinct names gives the same names, strictly increasing. */
  lemma {:induction false} SortStringsCorrect(xs: seq<string>)
    requires Distinct(xs)
    ensures multiset(SortStrings(xs)) == multiset(xs)
    ensures StrictlySorted(SortStrings(xs))
  {
    if |xs| > 0 {
      assert Distinct(xs[1..]);
      SortStringsCorrect(xs[1..]);
      assert xs[0] !in multiset(SortStrings(xs[1..]));
      InsertSorted(xs[0], SortStrings(xs[1..]));
      assert xs == [xs[0]] + xs[1..];
    }
  }

  /** A strictly sorted list is determined by its set of elements. */
  lemma {:induction false} SortedUnique(a: seq<string>, b: seq<string>)
    requires StrictlySorted(a) && StrictlySorted(b)
    requires forall x :: x in a <==> x in b
    ensures a == b
  {
    if |a| > 0 && |b| > 0 {
      assert a[0] in b;
      assert b[0] in a;
      if a[0] != b[0] {
        var k :| 0 <= k < |b| && b[k] == a[0];
        var m :| 0 <= m < |a| && a[m] == b[0];
        assert Less(b[0], a[0]);
        assert Less(a[0], b[0]);
        LessAsymmetric(a[0], b[0]);
      }
      forall x | x in a[1..] ensures x != a[0] {
        LessIrreflexive(a[0]);
      }
      forall x | x in b[1..] ensures x != b[0] {
        LessIrreflexive(b[0]);
      }
      assert a == [a[0]] + a[1..] && b == [b[0]] + b[1..];
      forall x ensures x in a[1..] <==> x in b[1..] {
        assert x in a[1..] <==> x in a && x != a[0];
        assert x in b[1..] <==> x in b && x != b[0];
      }
      SortedUnique(a[1..], b[1..]);
    } else if |a| > 0 {
      Witness(a, b);
    } else if |b| > 0 {
      Witness(b, a);
    }
  }

  lemma Witness(a: seq<string>, b: seq<string>)
    requires |a| > 0 && forall x :: x in a <==> x in b
    ensures |b| > 0
  {
    assert a[0] in b;
  }

  /** Any two listings of the same distinct names sort to the same list. */
  lemma SortListingIndependent(xs: seq<string>, ys: seq<string>)
    requires Distinct(xs) && Distinct(ys)
    requires forall x :: x in xs <==> x in ys
    ensures SortStrings(xs) == SortStrings(ys)
  {
    SortStringsCorrect(xs);
    SortStringsCorrect(ys);
    var a, b := SortStrings(xs), SortStrings(ys);
    forall x ensures x in a <==> x in b {
      calc {
        x in a;
        x in multiset(a);
        x in multiset(xs);
        x in xs;
        x in ys;
        x in multiset(ys);
        x in multiset(b);
        x in b;
      }
    }
    SortedUnique(a, b);
  }

  /** List.indexOf: the first position of x, or -1 when x is absent. */
  function IndexOf(xs: seq<string>, x: string): (i: int)
    ensures -1 <= i < |xs|
    ensures i >= 0 ==> xs[i] == x && forall j :: 0 <= j < i ==> xs[j] != x
    ensures i == -1 ==> x !in xs
  {
    if |xs| == 0 then -1
    else if xs[0] == x then 0
    else var k := IndexOf(xs[1..], x); if k == -1 then -1 else k + 1
  }

  lemma IndexOfDistinct(xs: seq<string>, j: int)
    requires Distinct(xs) && 0 <= j < |xs|
    ensures IndexOf(xs, xs[j]) == j
  {
  }
}
