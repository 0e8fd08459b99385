/**
 * The logged-in dashboard: the course form with its validation, the
 * per-course GPA cell of the course list and the cumulative CGPA button.
 */
module Dashboard {
  import opened Wrappers
  import opened Rounding
  import opened CourseModel

  /**
   * What "Calculate CGPA" stores in `cgpa`: nothing for an empty list or a
   * zero credit total, otherwise the pooled ratio rounded to two decimals.
   */
  function Cgpa(cs: seq<Course>): (r: Option<real>)
    ensures r.Some? ==> IsCents(r.value)
  {
    if |cs| == 0 then None
    else if TotalCreditHours(cs) == 0.0 then None
    else Some(Round2(TotalGradePoints(cs) / TotalCreditHours(cs)))
  }

  /** Permuting the course list does not change the CGPA. */
  lemma CgpaPermutationInvariant(a: seq<Course>, b: seq<Course>)
    requires multiset(a) == multiset(b)
    ensures Cgpa(a) == Cgpa(b)
  {
    assert |a| == |multiset(a)| == |multiset(b)| == |b|;
    SumOfPermutation(a, b, CreditHoursOf);
    SumOfPermutation(a, b, GradePointsOf);
  }

  /** A record as the form builds it: grade points are credit hours times the entered GPA. */
  predicate BuiltFromGpa(c: Course, gpa: real) {
    c.gradePoints == c.creditHours * gpa
  }

  /**
   * If every course carries positive credit hours and was built from a GPA
   * between lo and hi, the grade-point total lies between lo and hi times the
   * credit total.
   */
  lemma {:induction false} WeightedTotalsBounds(cs: seq<Course>, gpas: seq<real>, lo: real, hi: real)
    requires |cs| == |gpas|
    requires forall i :: 0 <= i < |cs| ==> cs[i].creditHours > 0.0 && BuiltFromGpa(cs[i], gpas[i])
    requires forall i :: 0 <= i < |gpas| ==> lo <= gpas[i] <= hi
    ensures lo * TotalCreditHours(cs) <= TotalGradePoints(cs) <= hi * TotalCreditHours(cs)
    ensures TotalCreditHours(cs) >= 0.0
    ensures cs != [] ==> TotalCreditHours(cs) > 0.0
  {
    if cs != [] {
      var n := |cs| - 1;
      WeightedTotalsBounds(cs[..n], gpas[..n], lo, hi);
      var t, gp := TotalCreditHours(cs[..n]), TotalGradePoints(cs[..n]);
      var ch, gn := cs[n].creditHours, cs[n].gradePoints;
      assert TotalCreditHours(cs) == t + ch;
      assert TotalGradePoints(cs) == gp + gn;
      WeightedStep(t, gp, ch, gn, gpas[n], lo, hi);
    }
  }

  /** Adding one course of credit ch and GPA g in lo..hi keeps the totals' bounds. */
  lemma WeightedStep(t: real, gp: real, ch: real, gn: real, g: real, lo: real, hi: real)
    requires lo * t <= gp <= hi * t && ch > 0.0 && gn == ch * g && lo <= g <= hi
    ensures lo * (t + ch) <= gp + gn <= hi * (t + ch)
  {
    MulMonotone(lo, g, ch);
    MulMonotone(g, hi, ch);
    assert lo * (t + ch) == lo * t + lo * ch;
    assert hi * (t + ch) == hi * t + hi * ch;
  }

  lemma MulMonotone(x: real, y: real, k: real)
    requires x <= y && k >= 0.0
    ensures x * k <= y * k
  {
  }

  /**
   * For courses entered through the form with positive credit hours, the
   * unrounded CGPA is a credit-weighted mean of the entered GPAs and so lies
   * between the smallest (lo) and largest (hi) of them; the displayed value
   * lies between their roundings.
   */
  lemma CgpaWithinGpaRange(cs: seq<Course>, gpas: seq<real>, lo: real, hi: real)
    requires |cs| == |gpas| > 0
    requires forall i :: 0 <= i < |cs| ==> cs[i].creditHours > 0.0 && BuiltFromGpa(cs[i], gpas[i])
    requires forall i :: 0 <= i < |gpas| ==> lo <= gpas[i] <= hi
    ensures TotalCreditHours(cs) > 0.0
    ensures lo <= TotalGradePoints(cs) / TotalCreditHours(cs) <= hi
    ensures Cgpa(cs).Some? && Round2(lo) <= Cgpa(cs).value <= Round2(hi)
  {
    WeightedTotalsBounds(cs, gpas, lo, hi);
    var t, g := TotalCreditHours(cs), TotalGradePoints(cs);
    DivBounds(lo, g, hi, t);
    Round2Monotone(lo, g / t);
    Round2Monotone(g / t, hi);
  }

  lemma DivBounds(lo: real, g: real, hi: real, t: real)
    requires t > 0.0 && lo * t <= g <= hi * t
    ensures lo <= g / t <= hi
  {
    assert g / t * t == g;
    if g / t < lo {
      MulMonotone(g / t, lo, t);
      assert false;
    }
    if hi < g / t {
      MulMonotone(hi, g / t, t);
      assert false;
    }
  }

  /** The GPA column of one listed course: `'-'` or the two-decimal ratio. */
  datatype GpaCell = Dash | Shown(value: real)

  /** `(creditHours && gradePoints) ? (gradePoints / creditHours).toFixed(2) : '-'` */
  function CourseGpaCell(c: Course): (cell: GpaCell)
    ensures cell == Dash <==> c.creditHours == 0.0 || c.gradePoints == 0.0
    ensures cell.Shown? ==> IsCents(cell.value)
  {
    if c.creditHours == 0.0 || c.gradePoints == 0.0 then Dash
    else Shown(Round2(c.gradePoints / c.creditHours))
  }

  /**
   * For a record built by the form, the GPA cell is `'-'` exactly when the
   * credit hours or the GPA is zero, and otherwise shows the entered GPA
   * rounded to two decimals, which is the GPA itself when it had at most two.
   */
  lemma CourseGpaCellRecoversGpa(c: Course, gpa: real)
    requires BuiltFromGpa(c, gpa)
    ensures CourseGpaCell(c) == Dash <==> c.creditHours == 0.0 || gpa == 0.0
    ensures c.creditHours != 0.0 && gpa != 0.0 ==> CourseGpaCell(c) == Shown(Round2(gpa))
    ensures c.creditHours != 0.0 && gpa != 0.0 && IsCents(gpa) ==> CourseGpaCell(c) == Shown(gpa)
  {
    if c.creditHours != 0.0 && gpa != 0.0 {
      assert c.gradePoints != 0.0;
      assert c.gradePoints / c.creditHours == gpa;
      if IsCents(gpa) {
        Round2Exact(gpa);
      }
    }
  }

  /** Outcome of validating the three form fields when "Add Course" is pressed. */
  datatype FormResult =
    | MissingField          // "Please fill out all fields"
    | NotANumber            // "Credit Hours and GPA must be valid numbers"
    | Ready(course: Course) // the body posted to the course route

  /**
   * Validation and grade-point derivation in the add-course handler; `parse`
   * stands for `parseFloat` followed by the `isNaN` test.
   */
  function ValidateForm(name: string, creditText: string, gpaText: string, parse: string -> Option<real>): (r: FormResult)
    ensures r == MissingField <==> name == "" || creditText == "" || gpaText == ""
    ensures r == NotANumber <==>
      name != "" && creditText != "" && gpaText != "" && (parse(creditText).None? || parse(gpaText).None?)
    ensures r.Ready? ==>
      r.course.courseName == name && parse(creditText) == Some(r.course.creditHours) &&
      parse(gpaText).Some? && BuiltFromGpa(r.course, parse(gpaText).value)
  {
    if name == "" || creditText == "" || gpaText == "" then MissingField
    else
      var ch, g := parse(creditText), parse(gpaText);
      if ch.None? || g.None? then NotANumber
      else Ready(Course(name, ch.value, ch.value * g.value))
  }

  /** The component state of the dashboard. */
  class DashboardState {
    var courses: seq<Course>
    var courseName: string
    var creditHours: string
    var gpa: string
    var cgpa: Option<real>

    constructor ()
      ensures courses == [] && courseName == "" && creditHours == "" && gpa == "" && cgpa == None
    {
      courses, courseName, creditHours, gpa, cgpa := [], "", "", "", None;
    }

    /** The list received from the course route replaces the shown one. */
    method ReceiveCourses(fetched: seq<Course>)
      modifies this`courses
      ensures courses == fetched
    {
      courses := fetched;
    }

    /** The "Calculate CGPA" button. */
    method CalculateCgpa()
      modifies this`cgpa
      ensures cgpa == Cgpa(courses)
      ensures courses == [] ==> cgpa == None
      ensures TotalCreditHours(courses) == 0.0 ==> cgpa == None
      ensures courses != [] && TotalCreditHours(courses) != 0.0 ==>
        cgpa == Some(Round2(TotalGradePoints(courses) / TotalCreditHours(courses)))
    {
      if |courses| == 0 {
        cgpa := None;
        return;
      }
      var totalCreditHours := TotalCreditHours(courses);
      var totalGradePoints := TotalGradePoints(courses);
      if totalCreditHours == 0.0 {
        cgpa := None;
        return;
      }
      cgpa := Some(Round2(totalGradePoints / totalCreditHours));
    }

    /**
     * The "Add Course" button.  Returns the validation outcome; `posted`
     * is whether the POST of a ready course succeeded.  The form is cleared
     * only after a successful POST; otherwise nothing changes.
     */
    method AddCourse(parse: string -> Option<real>, posted: bool) returns (outcome: FormResult)
      modifies this`courseName, this`creditHours, this`gpa
      ensures outcome == ValidateForm(old(courseName), old(creditHours), old(gpa), parse)
      ensures outcome.Ready? && posted ==> courseName == "" && creditHours == "" && gpa == ""
      ensures !(outcome.Ready? && posted) ==>
        courseName == old(courseName) && creditHours == old(creditHours) && gpa == old(gpa)
    {
      if courseName == "" || creditHours == "" || gpa == "" {
        return MissingField;
      }
      var parsedCreditHours := parse(creditHours);
      var parsedGpa := parse(gpa);
      if parsedCreditHours.None? || parsedGpa.None? {
        return NotANumber;
      }
      var computedGradePoints := parsedCreditHours.value * parsedGpa.value;
      outcome := Ready(Course(courseName, parsedCreditHours.value, computedGradePoints));
      if posted {
        courseName, creditHours, gpa := "", "", "";
      }
    }
  }
}
