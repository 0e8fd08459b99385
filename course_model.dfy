/**
 * The course record of the user schema and the two totals the dashboard
 * folds out of a course list.
 */
module CourseModel {

  /** One entry of a user's `courses` array: name, credit hours, grade points. */
  datatype Course = Course(courseName: string, creditHours: real, gradePoints: real)

  function CreditHoursOf(c: Course): real { c.creditHours }

  function GradePointsOf(c: Course): real { c.gradePoints }

  /** `cs.reduce((sum, c) => sum + f(c), 0)`: a left fold starting at 0. */
  function SumOf(cs: seq<Course>, f: Course -> real): (r: real)
    ensures cs == [] ==> r == 0.0
    ensures |cs| == 1 ==> r == f(cs[0])
  {
    if cs == [] then 0.0 else SumOf(cs[..|cs| - 1], f) + f(cs[|cs| - 1])
  }

  /** The first `reduce`: total credit hours; 0 for no course, the course's own for one. */
  function TotalCreditHours(cs: seq<Course>): (r: real)
    ensures cs == [] ==> r == 0.0
    ensures |cs| == 1 ==> r == cs[0].creditHours
  {
    SumOf(cs, CreditHoursOf)
  }

  /** The second `reduce`: total grade points; 0 for no course, the course's own for one. */
  function TotalGradePoints(cs: seq<Course>): (r: real)
    ensures cs == [] ==> r == 0.0
    ensures |cs| == 1 ==> r == cs[0].gradePoints
  {
    SumOf(cs, GradePointsOf)
  }

  /** The sum over two lists placed end to end is the sum of the two sums. */
  lemma {:induction false} SumOfConcat(a: seq<Course>, b: seq<Course>, f: Course -> real)
    ensures SumOf(a + b, f) == SumOf(a, f) + SumOf(b, f)
  {
    if b == [] {
      assert a + b == a;
    } else {
      assert (a + b)[..|a + b| - 1] == a + b[..|b| - 1];
      SumOfConcat(a, b[..|b| - 1], f);
    }
  }

  /** Taking one course out of a list takes its value out of the sum. */
  lemma SumOfRemove(b: seq<Course>, i: nat, f: Course -> real)
    requires i < |b|
    ensures SumOf(b, f) == SumOf(b[..i] + b[i + 1..], f) + f(b[i])
  {
    var p, x, q := b[..i], b[i], b[i + 1..];
    assert b == p + b[i..];
    assert b[i..] == [x] + q;
    calc {
      SumOf(b, f);
      { SumOfConcat(p, b[i..], f); }
      SumOf(p, f) + SumOf([x] + q, f);
      { SumOfConcat([x], q, f); }
      SumOf(p, f) + f(x) + SumOf(q, f);
      { SumOfConcat(p, q, f); }
      SumOf(p + q, f) + f(x);
    }
  }

  lemma MultisetRemove(a: seq<Course>, b: seq<Course>, i: nat)
    requires multiset(a) == multiset(b) && a != [] && i < |b| && b[i] == a[|a| - 1]
    ensures multiset(a[..|a| - 1]) == multiset(b[..i] + b[i + 1..])
  {
    var n := |a| - 1;
    assert a == a[..n] + [a[n]];
    assert b == b[..i] + [b[i]] + b[i + 1..];
    assert multiset(a) == multiset(a[..n]) + multiset{a[n]};
    assert multiset(b) == multiset(b[..i]) + multiset{b[i]} + multiset(b[i + 1..]);
    assert multiset(b[..i] + b[i + 1..]) == multiset(b[..i]) + multiset(b[i + 1..]);
    assert multiset(a[..n]) == multiset(a) - multiset{a[n]};
    assert multiset(b[..i] + b[i + 1..]) == multiset(b) - multiset{b[i]};
  }

  /** A sum does not depend on the order of the courses. */
  lemma {:induction false} SumOfPermutation(a: seq<Course>, b: seq<Course>, f: Course -> real)
    requires multiset(a) == multiset(b)
    ensures SumOf(a, f) == SumOf(b, f)
  {
    if a == [] {
      assert |multiset(b)| == 0;
    } else {
      var n := |a| - 1;
      assert a[n] in multiset(b);
      var i :| 0 <= i < |b| && b[i] == a[n];
      MultisetRemove(a, b, i);
      SumOfPermutation(a[..n], b[..i] + b[i + 1..], f);
      SumOfRemove(b, i, f);
    }
  }

  /**
   * With no negative credit hours anywhere, the credit total is not
   * negative; with no negative grade points either, neither is the
   * grade-point total.
   */
  lemma {:induction false} TotalsNonNegative(cs: seq<Course>)
    requires forall i :: 0 <= i < |cs| ==> cs[i].creditHours >= 0.0
    ensures TotalCreditHours(cs) >= 0.0
    ensures (forall i :: 0 <= i < |cs| ==> cs[i].gradePoints >= 0.0) ==> TotalGradePoints(cs) >= 0.0
  {
    if cs != [] {
      TotalsNonNegative(cs[..|cs| - 1]);
    }
  }
}
