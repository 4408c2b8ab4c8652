/**
 * The game JSON that the reduced-variance program and the payoff-matrix
 * converter print: a fixed header, then a "profiles" array with one object
 * per profile, each holding its id, its sample count and one "ALL" role
 * whose "strategies" array has a name, count, payoff and payoff_std per
 * strategy.  Both programs print a comma after every array element except
 * the last.
 */
module GameJson {
  import opened JavaStrings
  import opened Utils

  /** One strategy object; payoff and std are already the printed numbers. */
  datatype StrategyEntry = StrategyEntry(name: string, count: int, payoff: string, std: string)

  /** One profile object: its sample count and its strategies in printing order. */
  datatype ProfileEntry = ProfileEntry(sampleCount: int, strategies: seq<StrategyEntry>)

  function StrategyText(e: StrategyEntry): string {
    "{\"name\":\"" + e.name + "\"," + "\"count\":" + IntToString(e.count) + "," + "\"payoff\":" + e.payoff + ","
      + "\"payoff_std\":" + e.std + "}"
  }

  function StrategyTexts(es: seq<StrategyEntry>): (r: seq<string>)
    ensures |r| == |es| && forall i :: 0 <= i < |es| ==> r[i] == StrategyText(es[i])
  {
    seq(|es|, i requires 0 <= i < |es| => StrategyText(es[i]))
  }

  const ProfileOpen: string := "\"roles\":[" + "{\"name\":\"ALL\"," + "\"strategies\":["
  const ProfileClose: string := "]" + "}" + "]" + "}"

  /** The profile object printed with the given id. */
  function ProfileText(id: int, p: ProfileEntry): string {
    "{\"id\":\"" + IntToString(id) + "\"," + "\"sample_count\":" + IntToString(p.sampleCount) + ","
      + ProfileOpen + Joined(StrategyTexts(p.strategies), ",") + ProfileClose
  }

  /** Each element of xs mapped by f together with its position. */
  function Numbered<A, B>(xs: seq<A>, f: (int, A) -> B): (r: seq<B>)
    ensures |r| == |xs|
  {
    if |xs| == 0 then [] else Numbered(xs[..|xs| - 1], f) + [f(|xs| - 1, xs[|xs| - 1])]
  }

  lemma {:induction false} NumberedAt<A, B>(xs: seq<A>, f: (int, A) -> B, j: int)
    requires 0 <= j < |xs|
    ensures Numbered(xs, f)[j] == f(j, xs[j])
  {
    var n := |xs| - 1;
    if j < n {
      NumberedAt(xs[..n], f, j);
      assert xs[..n][j] == xs[j];
    }
  }

  /** The profile objects, numbered from 0 in printing order. */
  function ProfileTexts(ps: seq<ProfileEntry>): (r: seq<string>)
    ensures |r| == |ps|
  {
    Numbered(ps, ProfileText)
  }

  /** The j-th profile object carries id j. */
  lemma ProfileTextAt(ps: seq<ProfileEntry>, j: int)
    requires 0 <= j < |ps|
    ensures ProfileTexts(ps)[j] == ProfileText(j, ps[j])
  {
    NumberedAt(ps, ProfileText, j);
  }

  /** The whole file: the header, then the profiles array and the closing brace. */
  function GameText(header: string, ps: seq<ProfileEntry>): string {
    header + "\"profiles\":[" + Joined(ProfileTexts(ps), ",") + "]" + "}"
  }

  /**
   * One pass of a print loop: the element, then a comma unless it was the
   * last, extends the comma-separated list printed so far by one.
   */
  lemma PrintNext(texts: seq<string>, i: int, before: string, after: string)
    requires 0 <= i < |texts|
    requires before == Joined(texts[..i], ",") + (if 0 < i then "," else "")
    requires after == before + texts[i] + (if i + 1 < |texts| then "," else "")
    ensures after == Joined(texts[..i + 1], ",") + (if 0 < i + 1 < |texts| then "," else "")
  {
    JoinedStep(texts, ",", i);
  }

  method WriteGame(header: string, ps: seq<ProfileEntry>) returns (out: string)
    ensures out == GameText(header, ps)
  {
    var body := WriteProfiles(ps);
    out := header + "\"profiles\":[" + body + "]" + "}";
  }

  /**
   * The print loop over the profiles: id++ inside the object, and a comma
   * after it while id has not reached the number of profiles.
   */
  method WriteProfiles(ps: seq<ProfileEntry>) returns (body: string)
    ensures body == Joined(ProfileTexts(ps), ",")
  {
    ghost var texts := ProfileTexts(ps);
    body := "";
    var id := 0;
    while id < |ps|
      invariant 0 <= id <= |ps|
      invariant body == Joined(texts[..id], ",") + (if 0 < id < |ps| then "," else "")
    {
      var text := WriteProfile(id, ps[id]);
      ghost var before, printed := body, id;
      body := body + text;
      id := id + 1;
      if id != |ps| {
        body := body + ",";
      }
      PrintProfile(ps, printed, before, text, body);
    }
    assert texts[..|ps|] == texts;
  }

  /** One pass of the profile loop: profile id's object, then its comma, extends the list by one. */
  lemma PrintProfile(ps: seq<ProfileEntry>, id: int, before: string, text: string, after: string)
    requires 0 <= id < |ps|
    requires before == Joined(ProfileTexts(ps)[..id], ",") + (if 0 < id then "," else "")
    requires text == ProfileText(id, ps[id])
    requires after == before + text + (if id + 1 < |ps| then "," else "")
    ensures after == Joined(ProfileTexts(ps)[..id + 1], ",") + (if 0 < id + 1 < |ps| then "," else "")
  {
    ProfileTextAt(ps, id);
    PrintNext(ProfileTexts(ps), id, before, after);
  }

  method WriteProfile(id: int, p: ProfileEntry) returns (out: string)
    ensures out == ProfileText(id, p)
  {
    var body := WriteStrategies(p.strategies);
    out := "{\"id\":\"" + IntToString(id) + "\"," + "\"sample_count\":" + IntToString(p.sampleCount) + ","
      + ProfileOpen + body + ProfileClose;
  }

  /** The print loop over one profile's strategies, with a comma after every object but the last. */
  method WriteStrategies(es: seq<StrategyEntry>) returns (body: string)
    ensures body == Joined(StrategyTexts(es), ",")
  {
    ghost var texts := StrategyTexts(es);
    body := "";
    var n := |es|;
    for i := 0 to n
      invariant body == Joined(texts[..i], ",") + (if 0 < i < n then "," else "")
    {
      var text := StrategyText(es[i]);
      ghost var before := body;
      body := body + text;
      if i < n - 1 {
        body := body + ",";
      }
      PrintNext(texts, i, before, body);
    }
    assert texts[..n] == texts;
  }
}
