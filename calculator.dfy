/**
 * The stand-alone calculator page: one total of credit hours, one total of
 * grade points, and their ratio.
 */
module Calculator {
  import opened Wrappers
  import opened Rounding
  import opened CourseModel
  import Dashboard

  /**
   * The value the Calculate button stores, given the two parsed inputs
   * (`None` where `parseFloat` gives NaN).  Grade points are not checked.
   */
  function SingleEntryCgpa(creditHours: Option<real>, gradePoints: Option<real>): (r: Option<real>)
    ensures r.Some? <==> creditHours.Some? && gradePoints.Some? && creditHours.value > 0.0
    ensures r.Some? ==> IsCents(r.value)
  {
    if creditHours.None? || gradePoints.None? || creditHours.value <= 0.0 then None
    else Some(Round2(gradePoints.value / creditHours.value))
  }

  /**
   * The calculator agrees with the dashboard on a one-course list exactly
   * when the credit hours are not negative: for negative credit hours the
   * dashboard still divides, the calculator refuses.
   */
  lemma SingleEntryMatchesDashboard(name: string, creditHours: real, gradePoints: real)
    ensures SingleEntryCgpa(Some(creditHours), Some(gradePoints))
            == Dashboard.Cgpa([Course(name, creditHours, gradePoints)])
        <==> creditHours >= 0.0
  {
  }

  /**
   * Any grade-point total is divided once the credit hours are positive;
   * a non-positive total gives a non-positive CGPA, and a total within
   * 0..4 points per credit hour gives a CGPA within 0..4.
   */
  lemma SingleEntryUncheckedGradePoints(creditHours: real, gradePoints: real)
    requires creditHours > 0.0
    ensures SingleEntryCgpa(Some(creditHours), Some(gradePoints)).Some?
    ensures gradePoints <= 0.0 ==> SingleEntryCgpa(Some(creditHours), Some(gradePoints)).value <= 0.0
    ensures 0.0 <= gradePoints <= 4.0 * creditHours ==>
      0.0 <= SingleEntryCgpa(Some(creditHours), Some(gradePoints)).value <= 4.0
  {
    var q := gradePoints / creditHours;
    if 0.0 <= gradePoints <= 4.0 * creditHours {
      assert 0.0 <= q <= 4.0 by {
        Dashboard.DivBounds(0.0, gradePoints, 4.0, creditHours);
      }
      Round2Monotone(q, 4.0);
      Round2Exact(4.0);
    }
  }

  /** The component state of the calculator page. */
  class CalculatorState {
    var totalCreditHours: string
    var totalGradePoints: string
    var cgpa: Option<real>

    constructor ()
      ensures totalCreditHours == "" && totalGradePoints == "" && cgpa == None
    {
      totalCreditHours, totalGradePoints, cgpa := "", "", None;
    }

    /** The Calculate button; `parse` stands for `parseFloat` and the `isNaN` test. */
    method HandleCalculateCgpa(parse: string -> Option<real>)
      modifies this`cgpa
      ensures cgpa == SingleEntryCgpa(parse(totalCreditHours), parse(totalGradePoints))
      ensures parse(totalCreditHours).None? || parse(totalGradePoints).None? ==> cgpa == None
      ensures parse(totalCreditHours).Some? && parse(totalCreditHours).value <= 0.0 ==> cgpa == None
    {
      var creditHours := parse(totalCreditHours);
      var gradePoints := parse(totalGradePoints);
      if creditHours.None? || gradePoints.None? || creditHours.value <= 0.0 {
        cgpa := None;
        return;
      }
      var calculatedCgpa := gradePoints.value / creditHours.value;
      cgpa := Some(Round2(calculatedCgpa));
    }

    /** The Reset button clears both inputs and the result, whatever they held. */
    method HandleReset()
      modifies this
      ensures totalCreditHours == "" && totalGradePoints == "" && cgpa == None
    {
      totalCreditHours := "";
      totalGradePoints := "";
      cgpa := None;
    }
  }
}
