/**
 * How the dashboard's add-course request meets the course route: the
 * header the dashboard sends, which form entries the route accepts, and
 * what the list shows afterwards.
 */
module EndToEnd {
  import opened Wrappers
  import opened Rounding
  import opened CourseModel
  import opened Dashboard
  import opened CoursesRoute

  /**
   * The header the dashboard sends: `Bearer ${token}`.  The middleware's
   * `split(' ')[1]` reads back a space-free token from it.
   */
  function BearerHeader(token: string): (header: string)
    ensures |header| == 7 + |token| && header[..7] == "Bearer " && header[7..] == token
    ensures ' ' !in token ==> BearerToken(header) == Some(token)
  {
    if ' ' !in token then
      BearerTokenOfScheme("Bearer", token);
      assert "Bearer" + " " + token == "Bearer " + token;
      "Bearer " + token
    else "Bearer " + token
  }

  /** The JSON body the dashboard posts for a validated course. */
  function BodyOf(c: Course): (body: CourseBody)
    ensures ValidateBody(body).Some? <==> StorableCourse(c)
    ensures ValidateBody(body).Some? ==> ValidateBody(body).value == c
  {
    CourseBody(Some(c.courseName), Some(c.creditHours), Some(c.gradePoints))
  }

  /** A space-free token that verifies passes the middleware with its user id. */
  lemma BearerHeaderAuthenticates(token: string, verify: Verifier)
    requires ' ' !in token
    ensures Authenticate(Some(BearerHeader(token)), verify)
         == if verify(token).Some? then Authorized(verify(token).value) else InvalidToken
  {
    BearerTokenOfScheme("Bearer", token);
    assert "Bearer" + " " + token == BearerHeader(token);
  }

  /**
   * A course that passes the form's validation is accepted by the route
   * exactly when its credit hours and its GPA are both non-zero: the
   * front end lets zeros through, the route answers 400 for them.
   */
  lemma FormCourseAcceptedByRoute(name: string, creditText: string, gpaText: string, parse: string -> Option<real>)
    requires ValidateForm(name, creditText, gpaText, parse).Ready?
    ensures var c := ValidateForm(name, creditText, gpaText, parse).course;
      ValidateBody(BodyOf(c)).Some? <==> c.creditHours != 0.0 && parse(gpaText).value != 0.0
    ensures var c := ValidateForm(name, creditText, gpaText, parse).course;
      ValidateBody(BodyOf(c)).Some? ==> ValidateBody(BodyOf(c)) == Some(c)
  {
    var c := ValidateForm(name, creditText, gpaText, parse).course;
    var g := parse(gpaText).value;
    assert c.gradePoints == c.creditHours * g;
    if c.creditHours != 0.0 && g != 0.0 {
      assert c.gradePoints != 0.0;
    }
  }

  /**
   * The whole add-course path: a valid form entry with non-zero numbers,
   * posted by a known user, is answered 201; the next listing ends with the
   * new course, and its GPA cell shows the entered GPA rounded to two
   * decimals.
   */
  lemma AddedCourseIsListedWithItsGpa(
    users: map<UserId, seq<Course>>, token: string, verify: Verifier,
    name: string, creditText: string, gpaText: string, parse: string -> Option<real>)
    requires ' ' !in token && verify(token).Some? && verify(token).value in users
    requires ValidateForm(name, creditText, gpaText, parse).Ready?
    requires parse(creditText).value != 0.0 && parse(gpaText).value != 0.0
    ensures var c := ValidateForm(name, creditText, gpaText, parse).course;
      var post := HandlePost(users, Some(BearerHeader(token)), verify, BodyOf(c));
      post.response.status == 201 &&
      HandleGet(post.users, Some(BearerHeader(token)), verify)
        == CourseList(200, users[verify(token).value] + [c]) &&
      CourseGpaCell(c) == Shown(Round2(parse(gpaText).value))
  {
    var c := ValidateForm(name, creditText, gpaText, parse).course;
    BearerHeaderAuthenticates(token, verify);
    FormCourseAcceptedByRoute(name, creditText, gpaText, parse);
    GetAfterPost(users, Some(BearerHeader(token)), verify, BodyOf(c));
    CourseGpaCellRecoversGpa(c, parse(gpaText).value);
  }
}
