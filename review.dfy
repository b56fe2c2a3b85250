/**
 * The subject list and the dashboard's per-subject mastered count.
 */
module Review {
  import opened Progress

  /** The subject ids, in the order the dashboard lists them. */
  const Subjects: seq<string> :=
    ["chinese", "math", "english", "physics", "chemistry", "biology", "history", "geography", "politics"]

  lemma SubjectsHaveNoUnderscore()
    ensures forall i :: 0 <= i < |Subjects| ==> NoUnderscore(Subjects[i])
  {
  }

  /** For the application's own subjects a point key names one point:
      no two (subject, title) pairs share a document or a session entry. */
  lemma SubjectKeysInjective(s1: string, t1: string, s2: string, t2: string)
    requires s1 in Subjects && s2 in Subjects
    requires PointKey(s1, t1) == PointKey(s2, t2)
    ensures s1 == s2 && t1 == t2
  {
    SubjectsHaveNoUnderscore();
    PointKeyInjective(s1, t1, s2, t2);
  }

  /** How many of a subject's items (given by their titles) are mastered. */
  function MasteredCount(sid: string, titles: seq<string>, mastered: set<string>): (n: nat)
    ensures n <= |titles|
    ensures n == |titles| <==> forall i :: 0 <= i < |titles| ==> PointKey(sid, titles[i]) in mastered
    ensures n == 0 <==> forall i :: 0 <= i < |titles| ==> PointKey(sid, titles[i]) !in mastered
  {
    if titles == [] then 0
    else
      var rest := MasteredCount(sid, titles[1..], mastered);
      assert forall i :: 1 <= i < |titles| ==> titles[i] == titles[1..][i - 1];
      (if PointKey(sid, titles[0]) in mastered then 1 else 0) + rest
  }

  /** Marking more points mastered never lowers a subject's count. */
  lemma {:induction false} MasteredCountMonotone(sid: string, titles: seq<string>, a: set<string>, b: set<string>)
    requires a <= b
    ensures MasteredCount(sid, titles, a) <= MasteredCount(sid, titles, b)
  {
    if titles != [] {
      MasteredCountMonotone(sid, titles[1..], a, b);
    }
  }
}
