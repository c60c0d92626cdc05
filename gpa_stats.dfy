/** `calculateGPAStats`: the summary figures shown above the transcript list,
    recomputed from the whole list every time it changes. Metrics are exact
    reals, so the division and the 0.9/0.1 blend carry no rounding. */
module GpaStats {
  import opened Common
  import opened Seqs
  import opened Transcripts

  datatype Stats = Stats(
    currentGPA: real,
    totalCredits: int,
    verifiedCourses: nat,
    averageGrade: real,
    predictedGPA: real)

  const ZeroStats: Stats := Stats(0.0, 0, 0, 0.0, 0.0)

  /** Weight of the verified GPA and of the public-value average in the
      predicted GPA (a fixed product policy). */
  const GpaWeight: real := 0.9
  const AverageWeight: real := 0.1

  function IsVerified(t: Transcript): bool { t.isVerified }

  /** `transcripts.filter(t => t.isVerified)`. */
  function VerifiedCourses(ts: seq<Transcript>): seq<Transcript>
  {
    Filter(ts, IsVerified)
  }

  /** Sum of `creditHours`. */
  function CreditSum(ts: seq<Transcript>): int
    decreases |ts|
  {
    if ts == [] then 0 else ts[0].creditHours + CreditSum(ts[1..])
  }

  /** A grade counted in the GPA: `decryptedValue || 0`. */
  function GradeOf(t: Transcript): int { t.decryptedValue.GetOr(0) }

  /** Sum of `(decryptedValue || 0) * creditHours`. */
  function GradePoints(ts: seq<Transcript>): int
    decreases |ts|
  {
    if ts == [] then 0 else GradeOf(ts[0]) * ts[0].creditHours + GradePoints(ts[1..])
  }

  /** Sum of `publicValue1`. */
  function PublicSum(ts: seq<Transcript>): int
    decreases |ts|
  {
    if ts == [] then 0 else ts[0].publicValue1 + PublicSum(ts[1..])
  }

  function TotalCredits(ts: seq<Transcript>): int
  {
    CreditSum(VerifiedCourses(ts))
  }

  /** Credit-weighted mean grade of the verified records, 0 when they carry
      no positive credit total. */
  function CurrentGpa(ts: seq<Transcript>): real
  {
    var credits := TotalCredits(ts);
    if credits > 0 then GradePoints(VerifiedCourses(ts)) as real / credits as real else 0.0
  }

  /** Mean of `publicValue1` over every record, verified or not; 0 for an
      empty list. */
  function AverageGrade(ts: seq<Transcript>): real
  {
    if |ts| > 0 then PublicSum(ts) as real / |ts| as real else 0.0
  }

  function Predicted(current: real, average: real): real
  {
    current * GpaWeight + average * AverageWeight
  }

  function CalculateGpaStats(ts: seq<Transcript>): (s: Stats)
    ensures s.verifiedCourses <= |ts|
    ensures ts == [] ==> s == ZeroStats
  {
    var current := CurrentGpa(ts);
    var average := AverageGrade(ts);
    Stats(current, TotalCredits(ts), |VerifiedCourses(ts)|, average, Predicted(current, average))
  }

  /** With no verified record the GPA, the credit total and the verified
      count are all 0, whatever the unverified records hold. */
  lemma NoVerifiedStats(ts: seq<Transcript>)
    requires forall i :: 0 <= i < |ts| ==> !ts[i].isVerified
    ensures var s := CalculateGpaStats(ts);
            s.currentGPA == 0.0 && s.totalCredits == 0 && s.verifiedCourses == 0
  {
  }

  /** The verified count counts exactly the verified records, and the credit
      total sums exactly their credit hours. */
  lemma {:induction false} VerifiedTotals(ts: seq<Transcript>)
    ensures |VerifiedCourses(ts)| == CountVerified(ts)
    ensures TotalCredits(ts) == VerifiedCreditSum(ts)
    decreases |ts|
  {
    if ts != [] {
      VerifiedTotals(ts[1..]);
    }
  }

  /** Reference count of verified records, by direct recursion. */
  function CountVerified(ts: seq<Transcript>): nat
    decreases |ts|
  {
    if ts == [] then 0 else (if ts[0].isVerified then 1 else 0) + CountVerified(ts[1..])
  }

  /** Reference sum of the verified records' credit hours. */
  function VerifiedCreditSum(ts: seq<Transcript>): int
    decreases |ts|
  {
    if ts == [] then 0
    else (if ts[0].isVerified then ts[0].creditHours else 0) + VerifiedCreditSum(ts[1..])
  }

  /** Grade points lie between `lo` and `hi` times the credit sum when every
      record has positive credit and a grade in [lo, hi]. */
  lemma {:induction false} GradePointsBounds(vs: seq<Transcript>, lo: int, hi: int)
    requires forall i :: 0 <= i < |vs| ==> vs[i].creditHours > 0 && lo <= GradeOf(vs[i]) <= hi
    ensures lo * CreditSum(vs) <= GradePoints(vs) <= hi * CreditSum(vs)
    ensures vs != [] ==> CreditSum(vs) > 0
    decreases |vs|
  {
    if vs != [] {
      var rest := vs[1..];
      GradePointsBounds(rest, lo, hi);
      var c, g := vs[0].creditHours, GradeOf(vs[0]);
      MulMonotone(lo, g, c);
      MulMonotone(g, hi, c);
      Distribute(lo, c, CreditSum(rest));
      Distribute(hi, c, CreditSum(rest));
    }
  }

  lemma Distribute(a: int, b: int, c: int)
    ensures a * (b + c) == a * b + a * c
  {
  }

  lemma MulMonotone(a: int, b: int, c: int)
    requires a <= b && c > 0
    ensures a * c <= b * c
  {
  }

  /** A quotient of a bounded total by a positive weight is bounded. */
  lemma QuotientBounds(total: int, weight: int, lo: int, hi: int)
    requires weight > 0 && lo * weight <= total <= hi * weight
    ensures lo as real <= total as real / weight as real <= hi as real
  {
    var q := total as real / weight as real;
    assert q * weight as real == total as real;
  }

  /** With positive credits and every verified grade in [lo, hi] (a missing
      grade counting as 0), the GPA lies in [lo, hi] as soon as one record is
      verified. */
  lemma GpaWithinBounds(ts: seq<Transcript>, lo: int, hi: int)
    requires forall i :: 0 <= i < |ts| && ts[i].isVerified ==>
               ts[i].creditHours > 0 && lo <= GradeOf(ts[i]) <= hi
    requires exists i :: 0 <= i < |ts| && ts[i].isVerified
    ensures lo as real <= CalculateGpaStats(ts).currentGPA <= hi as real
  {
    var vs := VerifiedCourses(ts);
    forall i | 0 <= i < |vs| ensures vs[i].creditHours > 0 && lo <= GradeOf(vs[i]) <= hi {
      assert vs[i] in ts;
    }
    var j :| 0 <= j < |ts| && ts[j].isVerified;
    assert ts[j] in vs;
    GradePointsBounds(vs, lo, hi);
    QuotientBounds(GradePoints(vs), CreditSum(vs), lo, hi);
  }

  /** The average of `publicValue1` lies within any bounds all of them share. */
  lemma {:induction false} PublicSumBounds(ts: seq<Transcript>, lo: int, hi: int)
    requires forall i :: 0 <= i < |ts| ==> lo <= ts[i].publicValue1 <= hi
    ensures lo * |ts| <= PublicSum(ts) <= hi * |ts|
    decreases |ts|
  {
    if ts != [] {
      PublicSumBounds(ts[1..], lo, hi);
    }
  }

  lemma AverageWithinBounds(ts: seq<Transcript>, lo: int, hi: int)
    requires ts != []
    requires forall i :: 0 <= i < |ts| ==> lo <= ts[i].publicValue1 <= hi
    ensures lo as real <= CalculateGpaStats(ts).averageGrade <= hi as real
  {
    PublicSumBounds(ts, lo, hi);
    QuotientBounds(PublicSum(ts), |ts|, lo, hi);
  }

  /** The predicted GPA is a 90/10 blend, so it lies between the verified GPA
      and the public-value average. */
  lemma PredictedBetween(ts: seq<Transcript>)
    ensures var s := CalculateGpaStats(ts);
            var lo := if s.currentGPA <= s.averageGrade then s.currentGPA else s.averageGrade;
            var hi := if s.currentGPA <= s.averageGrade then s.averageGrade else s.currentGPA;
            lo <= s.predictedGPA <= hi && s.predictedGPA == s.currentGPA * 0.9 + s.averageGrade * 0.1
  {
  }

  /** Credits 3 and 2 with verified grades 90 and 80 give a GPA of 86; as
      written, the average is taken over `publicValue1` (the credit hours
      the page submits), here 2.5, so the prediction is 77.65. */
  lemma WorkedExample()
    ensures var a := Transcript("a", "Algebra", "a", 3, "Semester 1", 0, "me", true, Some(90), 3, 1);
            var b := Transcript("b", "Biology", "b", 2, "Semester 1", 0, "me", true, Some(80), 2, 1);
            CalculateGpaStats([a, b]) == Stats(86.0, 5, 2, 2.5, 77.65)
  {
    var a := Transcript("a", "Algebra", "a", 3, "Semester 1", 0, "me", true, Some(90), 3, 1);
    var b := Transcript("b", "Biology", "b", 2, "Semester 1", 0, "me", true, Some(80), 2, 1);
    assert VerifiedCourses([a, b]) == [a, b];
  }
}
