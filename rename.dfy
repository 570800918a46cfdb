/** The rename on serialisation (`getSchemaAsString`): the serialised schema
    has its first `_$` replaced by `$`, which turns the internal member name
    `_$schema` into `$schema`. A string pattern given to `replace` stands for
    its first occurrence only. */
module Serialisation {

  /** `pat` occurs in `s` starting at index `j`. */
  predicate OccursAt(s: string, pat: string, j: nat)
  {
    j + |pat| <= |s| && s[j..j + |pat|] == pat
  }

  /** The index of the first occurrence of `pat` in `s` at or after `from`. */
  function FirstOccurrence(s: string, pat: string, from: nat): (r: Occurrence)
    ensures r.Found? ==> from <= r.at && OccursAt(s, pat, r.at)
    ensures r.Found? ==> forall j: nat :: from <= j < r.at ==> !OccursAt(s, pat, j)
    ensures r.NotFound? ==> forall j: nat :: from <= j ==> !OccursAt(s, pat, j)
    decreases |s| - from
  {
    if from + |pat| > |s| then NotFound
    else if s[from..from + |pat|] == pat then Found(from)
    else FirstOccurrence(s, pat, from + 1)
  }

  datatype Occurrence = NotFound | Found(at: nat)

  /** The first occurrence of `pat` in `s` starts at `i`. */
  predicate FirstAt(s: string, pat: string, i: nat)
  {
    OccursAt(s, pat, i) && forall j: nat :: j < i ==> !OccursAt(s, pat, j)
  }

  /** `s.replace(pat, rep)` with a string pattern. The replacement `$` has no
      special pattern after it, so it stands for itself. Without an
      occurrence the text is unchanged; otherwise the first occurrence is
      replaced, and the text before it and all of the text after it, later
      occurrences included, are kept. */
  function ReplaceFirst(s: string, pat: string, rep: string): (r: string)
    ensures (forall j: nat :: !OccursAt(s, pat, j)) ==> r == s
    ensures forall i: nat :: FirstAt(s, pat, i) ==> r == s[..i] + rep + s[i + |pat|..]
  {
    match FirstOccurrence(s, pat, 0)
    case NotFound => s
    case Found(i) => s[..i] + rep + s[i + |pat|..]
  }

  /** An occurrence of a two-character pattern, character by character. */
  lemma OccursAtPair(s: string, pat: string, j: nat)
    requires |pat| == 2
    ensures OccursAt(s, pat, j) <==> j + 2 <= |s| && s[j] == pat[0] && s[j + 1] == pat[1]
  {
    if j + 2 <= |s| {
      if s[j] == pat[0] && s[j + 1] == pat[1] {
        assert s[j..j + 2] == [s[j], s[j + 1]];
      }
      if OccursAt(s, pat, j) {
        assert s[j..j + 2][0] == s[j] && s[j..j + 2][1] == s[j + 1];
      }
    }
  }

  /** The dialect member serialised first (`{"_$schema":…`, possibly after
      layout): with no `_$` before it, the rename turns it into `$schema`
      and changes nothing else. */
  lemma RenamesDialectMember(before: string, after: string)
    requires forall j: nat :: !OccursAt(before, "_$", j)
    ensures ReplaceFirst(before + "\"_$schema\"" + after, "_$", "$") == before + "\"$schema\"" + after
  {
    var mid := "\"_$schema\"" + after;
    assert before + mid == before + "\"_$schema\"" + after;
    DialectOccurrence(before, mid);
    NoOccurrenceBefore(before, mid);
    assert FirstAt(before + mid, "_$", |before| + 1);
    DialectRenamed(before, after);
  }

  lemma DialectRenamed(before: string, after: string)
    ensures var s := before + ("\"_$schema\"" + after);
      s[..|before| + 1] + "$" + s[|before| + 3..] == before + "\"$schema\"" + after
  {
    var mid := "\"_$schema\"" + after;
    var s := before + mid;
    assert s[..|before| + 1] == before + "\"";
    assert s[|before| + 3..] == mid[3..];
    assert mid[3..] == "schema\"" + after;
  }

  lemma DialectOccurrence(before: string, mid: string)
    requires |mid| >= 3 && mid[..3] == "\"_$"
    ensures OccursAt(before + mid, "_$", |before| + 1)
  {
    var s, i := before + mid, |before| + 1;
    assert mid[1] == mid[..3][1] && mid[2] == mid[..3][2];
    assert s[i] == mid[1] && s[i + 1] == mid[2];
    OccursAtPair(s, "_$", i);
  }

  lemma NoOccurrenceBefore(before: string, mid: string)
    requires |mid| >= 1 && mid[0] == '"'
    requires forall j: nat :: !OccursAt(before, "_$", j)
    ensures forall j: nat :: j <= |before| ==> !OccursAt(before + mid, "_$", j)
  {
    var s := before + mid;
    forall j: nat | j <= |before|
      ensures !OccursAt(s, "_$", j)
    {
      OccursAtPair(s, "_$", j);
      if j + 2 <= |before| {
        OccursAtPair(before, "_$", j);
        assert s[j] == before[j] && s[j + 1] == before[j + 1];
      } else if j + 1 < |s| {
        assert s[j + 1] == mid[j + 1 - |before|];
      }
    }
  }

  /** Only the first occurrence is replaced: a later one, not overlapping
      it, is still there, shifted by the change in length. */
  lemma LaterOccurrenceKept(s: string, pat: string, rep: string, i: nat, k: nat)
    requires FirstAt(s, pat, i)
    requires i + |pat| <= k && OccursAt(s, pat, k)
    ensures OccursAt(ReplaceFirst(s, pat, rep), pat, k - |pat| + |rep|)
  {
    ReplacedText(s, pat, rep, i);
    KeptAfter(s, pat, rep, i, k);
  }

  /** The text after replacing the first occurrence, at `i`. */
  lemma ReplacedText(s: string, pat: string, rep: string, i: nat)
    requires FirstAt(s, pat, i)
    ensures ReplaceFirst(s, pat, rep) == s[..i] + rep + s[i + |pat|..]
  {
  }

  /** Replacing the text at `i` shifts an occurrence after it. */
  lemma KeptAfter(s: string, pat: string, rep: string, i: nat, k: nat)
    requires i + |pat| <= k && OccursAt(s, pat, k)
    ensures OccursAt(s[..i] + rep + s[i + |pat|..], pat, k - |pat| + |rep|)
  {
    var tail := s[i + |pat|..];
    var r := s[..i] + rep + tail;
    var k' := k - |pat| + |rep|;
    assert tail[k - (i + |pat|)..k - (i + |pat|) + |pat|] == s[k..k + |pat|];
    assert r[k'..k' + |pat|] == tail[k - (i + |pat|)..k - (i + |pat|) + |pat|];
  }
}
