/**
 * The synthesised `all_text` feature of a job posting (app.py, build_all_text):
 * the job description, the skills description and the free text, each read as
 * the empty string when it is missing, joined by single spaces in that order.
 */
module TextFields {
  import opened Wrappers

  /** A missing value reads as the empty string, a present one as itself. */
  function Coalesce(v: Option<string>): (s: string)
    ensures v.None? ==> s == ""
    ensures v.Some? ==> s == v.value
  {
    if v.None? then "" else v.value
  }

  /** The sum of the lengths of the parts. */
  function TotalLength(parts: seq<string>): nat
  {
    if |parts| == 0 then 0 else |parts[0]| + TotalLength(parts[1..])
  }

  /**
   * `sep.join(parts)`: the parts in order, `sep` between neighbours and nowhere
   * else. It starts with the first part, and it is exactly as long as its parts
   * plus one separator between each neighbouring pair.
   */
  function Join(sep: string, parts: seq<string>): (r: string)
    ensures |parts| == 0 ==> r == ""
    ensures |parts| > 0 ==> |r| == TotalLength(parts) + (|parts| - 1) * |sep|
    ensures |parts| > 0 ==> r[..|parts[0]|] == parts[0]
  {
    if |parts| == 0 then ""
    else if |parts| == 1 then parts[0]
    else
      var rest := Join(sep, parts[1..]);
      assert (|parts| - 1) * |sep| == (|parts[1..]| - 1) * |sep| + |sep|;
      parts[0] + sep + rest
  }

  /** Joining three parts puts the separator between the first two and between the last two. */
  lemma {:induction false} JoinThree(sep: string, a: string, b: string, c: string)
    ensures Join(sep, [a, b, c]) == a + sep + b + sep + c
  {
    assert [b, c][1..] == [c];
    assert Join(sep, [b, c]) == b + sep + c;
    assert [a, b, c][1..] == [b, c];
  }

  /** The reference definition of `all_text`: three coalesced parts and two single spaces. */
  function AllText(jobDesc: Option<string>, skillsDesc: Option<string>, text: Option<string>): (r: string)
    ensures |r| == |Coalesce(jobDesc)| + |Coalesce(skillsDesc)| + |Coalesce(text)| + 2
    ensures r[|Coalesce(jobDesc)|] == ' ' && r[|Coalesce(jobDesc)| + 1 + |Coalesce(skillsDesc)|] == ' '
  {
    Coalesce(jobDesc) + " " + Coalesce(skillsDesc) + " " + Coalesce(text)
  }

  /**
   * build_all_text: walks the three values in order, replaces a missing one by
   * the empty string, collects them into a list and joins the list with " ".
   */
  method BuildAllText(jobDesc: Option<string>, skillsDesc: Option<string>, text: Option<string>)
    returns (r: string)
    ensures r == AllText(jobDesc, skillsDesc, text)
    ensures |r| == |Coalesce(jobDesc)| + |Coalesce(skillsDesc)| + |Coalesce(text)| + 2
  {
    var vals := [jobDesc, skillsDesc, text];
    var parts: seq<string> := [];
    for i := 0 to |vals|
      invariant |parts| == i
      invariant forall k :: 0 <= k < i ==> parts[k] == Coalesce(vals[k])
    {
      var val := vals[i];
      if val.None? {
        val := Some("");
      }
      parts := parts + [val.value];
    }
    r := Join(" ", parts);
    assert parts == [Coalesce(jobDesc), Coalesce(skillsDesc), Coalesce(text)];
    JoinThree(" ", parts[0], parts[1], parts[2]);
  }

  /**
   * The layout of `all_text`: the first part, one space, the second part, one
   * space, the third part. Every part keeps its place, however long or empty.
   */
  lemma AllTextLayout(jobDesc: Option<string>, skillsDesc: Option<string>, text: Option<string>)
    ensures var a, b, c := Coalesce(jobDesc), Coalesce(skillsDesc), Coalesce(text);
            var r := AllText(jobDesc, skillsDesc, text);
            && |r| == |a| + |b| + |c| + 2
            && r[..|a|] == a
            && r[|a|] == ' '
            && r[|a| + 1..|a| + 1 + |b|] == b
            && r[|a| + 1 + |b|] == ' '
            && r[|a| + |b| + 2..] == c
  {
  }

  /**
   * Recovering the parts: two `all_text` values are equal with parts of equal
   * lengths only when the parts themselves are equal, so no part is lost or merged.
   */
  lemma AllTextInjective(j1: Option<string>, s1: Option<string>, t1: Option<string>,
                         j2: Option<string>, s2: Option<string>, t2: Option<string>)
    requires |Coalesce(j1)| == |Coalesce(j2)| && |Coalesce(s1)| == |Coalesce(s2)|
    requires AllText(j1, s1, t1) == AllText(j2, s2, t2)
    ensures Coalesce(j1) == Coalesce(j2) && Coalesce(s1) == Coalesce(s2) && Coalesce(t1) == Coalesce(t2)
  {
    AllTextLayout(j1, s1, t1);
    AllTextLayout(j2, s2, t2);
  }

  /** A missing middle part is kept as an empty part: ("A", None, "C") gives "A  C". */
  lemma MissingPartKept()
    ensures AllText(Some("A"), None, Some("C")) == "A  C"
  {
  }

  /**
   * Nothing is trimmed: an empty first part leaves a leading space, an empty last
   * part a trailing one, and three missing parts give two spaces.
   */
  lemma NoTrimming(jobDesc: Option<string>, skillsDesc: Option<string>, text: Option<string>)
    ensures Coalesce(jobDesc) == "" ==> AllText(jobDesc, skillsDesc, text)[0] == ' '
    ensures Coalesce(text) == "" ==>
      var r := AllText(jobDesc, skillsDesc, text); r[|r| - 1] == ' '
    ensures AllText(None, None, None) == "  "
  {
  }
}
