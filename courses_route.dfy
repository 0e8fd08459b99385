/**
 * The authenticated course route of the back end: the bearer-token
 * middleware, listing a user's courses and appending one course.
 */
module CoursesRoute {
  import opened Wrappers
  import opened CourseModel

  type UserId = string

  /**
   * `jwt.verify` with the route's secret, followed by reading `decoded.userId`;
   * `None` is an error.  It is verification at one instant: token expiry is
   * not modelled, and neither is the library's own rejection of an empty
   * token, which a verifier here may accept.
   */
  type Verifier = string -> Option<UserId>

  // ---------------------------------------------------------------------------
  // `String.prototype.split` on one separator character, and its inverse

  /** The fields of s between occurrences of sep (`SplitFieldCount`: n separators give n + 1 fields). */
  function Split(s: string, sep: char): (fields: seq<string>)
    ensures |fields| >= 1
    ensures forall i :: 0 <= i < |fields| ==> sep !in fields[i]
    decreases |s|
  {
    if s == [] then [""]
    else
      var rest := Split(s[1..], sep);
      if s[0] == sep then [""] + rest
      else [[s[0]] + rest[0]] + rest[1..]
  }

  /** The fields glued back together with sep between neighbours. */
  function Join(fields: seq<string>, sep: char): string
    requires |fields| >= 1
  {
    if |fields| == 1 then fields[0] else fields[0] + [sep] + Join(fields[1..], sep)
  }

  /** A split yields one field more than there are separators. */
  lemma {:induction false} SplitFieldCount(s: string, sep: char)
    ensures |Split(s, sep)| == multiset(s)[sep] + 1
    decreases |s|
  {
    if s != [] {
      SplitFieldCount(s[1..], sep);
      assert s == [s[0]] + s[1..];
    }
  }

  /** Joining the fields of a split gives back the string. */
  lemma {:induction false} JoinSplit(s: string, sep: char)
    ensures Join(Split(s, sep), sep) == s
    decreases |s|
  {
    if s != [] {
      var rest := Split(s[1..], sep);
      JoinSplit(s[1..], sep);
      assert s == [s[0]] + s[1..];
      if s[0] != sep && |rest| > 1 {
        assert Join(rest, sep) == rest[0] + [sep] + Join(rest[1..], sep);
        assert ([[s[0]] + rest[0]] + rest[1..])[1..] == rest[1..];
      }
    }
  }

  lemma {:induction false} SplitWithoutSeparator(s: string, sep: char)
    requires sep !in s
    ensures Split(s, sep) == [s]
    decreases |s|
  {
    if s != [] {
      SplitWithoutSeparator(s[1..], sep);
      assert s == [s[0]] + s[1..];
    }
  }

  lemma {:induction false} SplitAtFirstSeparator(a: string, sep: char, t: string)
    requires sep !in a
    ensures Split(a + [sep] + t, sep) == [a] + Split(t, sep)
    decreases |a|
  {
    var s := a + [sep] + t;
    if a == [] {
      assert s[1..] == t;
    } else {
      assert s[1..] == a[1..] + [sep] + t;
      SplitAtFirstSeparator(a[1..], sep, t);
      assert [a[0]] + a[1..] == a;
    }
  }

  /** Splitting joined fields that hold no separator gives back the fields. */
  lemma {:induction false} SplitJoin(fields: seq<string>, sep: char)
    requires |fields| >= 1
    requires forall i :: 0 <= i < |fields| ==> sep !in fields[i]
    ensures Split(Join(fields, sep), sep) == fields
  {
    if |fields| == 1 {
      SplitWithoutSeparator(fields[0], sep);
    } else {
      assert sep !in fields[0];
      SplitJoin(fields[1..], sep);
      SplitAtFirstSeparator(fields[0], sep, Join(fields[1..], sep));
      assert [fields[0]] + fields[1..] == fields;
    }
  }

  // ---------------------------------------------------------------------------
  // The authentication middleware

  /** `authHeader.split(' ')[1]`: the second space-separated field, if there is one. */
  function BearerToken(header: string): (token: Option<string>)
    ensures token.Some? ==> ' ' !in token.value
  {
    var fields := Split(header, ' ');
    if |fields| > 1 then Some(fields[1]) else None
  }

  /** For "<scheme> <token>" with no further spaces, the token is what follows the space. */
  lemma BearerTokenOfScheme(scheme: string, token: string)
    requires ' ' !in scheme && ' ' !in token
    ensures BearerToken(scheme + " " + token) == Some(token)
  {
    var fields := [scheme, token];
    assert Join(fields, ' ') == scheme + " " + token by {
      assert Join(fields[1..], ' ') == token;
    }
    SplitJoin(fields, ' ');
  }

  /** A header without a space has no second field, so the token is undefined. */
  lemma BearerTokenNeedsSpace(header: string)
    requires ' ' !in header
    ensures BearerToken(header) == None
  {
    SplitWithoutSeparator(header, ' ');
  }

  datatype AuthResult =
    | NoToken               // no (or an empty) Authorization header
    | InvalidToken          // the token is undefined or fails verification
    | Authorized(userId: UserId)

  /** The middleware's decision; a request that is not `Authorized` never reaches a handler. */
  function Authenticate(authorization: Option<string>, verify: Verifier): (r: AuthResult)
    ensures r == NoToken <==> authorization == None || authorization == Some("")
    ensures r.Authorized? <==>
      authorization.Some? && authorization.value != "" &&
      BearerToken(authorization.value).Some? && verify(BearerToken(authorization.value).value).Some?
    ensures r.Authorized? ==> Some(r.userId) == verify(BearerToken(authorization.value).value)
  {
    if authorization == None || authorization == Some("") then NoToken
    else
      match BearerToken(authorization.value)
      case None => InvalidToken
      case Some(token) =>
        match verify(token)
        case None => InvalidToken
        case Some(userId) => Authorized(userId)
  }

  // ---------------------------------------------------------------------------
  // Requests and responses

  /** The JSON body of an add-course request; an absent field is `None`. */
  datatype CourseBody = CourseBody(courseName: Option<string>, creditHours: Option<real>, gradePoints: Option<real>)

  datatype Response =
    | Message(status: nat, message: string)
    | CourseList(status: nat, courses: seq<Course>)

  predicate TruthyText(v: Option<string>) { v.Some? && v.value != "" }

  predicate TruthyNumber(v: Option<real>) { v.Some? && v.value != 0.0 }

  /** A course this route would store: no field is empty or zero. */
  predicate StorableCourse(c: Course) {
    c.courseName != "" && c.creditHours != 0.0 && c.gradePoints != 0.0
  }

  /** The course built from a body, unless one of its fields is falsy. */
  function ValidateBody(body: CourseBody): (r: Option<Course>)
    ensures r.Some? <==>
      TruthyText(body.courseName) && TruthyNumber(body.creditHours) && TruthyNumber(body.gradePoints)
    ensures r.Some? ==>
      StorableCourse(r.value) && r.value.courseName == body.courseName.value &&
      r.value.creditHours == body.creditHours.value && r.value.gradePoints == body.gradePoints.value
  {
    if !TruthyText(body.courseName) || !TruthyNumber(body.creditHours) || !TruthyNumber(body.gradePoints)
    then None
    else Some(Course(body.courseName.value, body.creditHours.value, body.gradePoints.value))
  }

  /** The middleware's 401 answer for a request it stops. */
  function Unauthorized(auth: AuthResult): (r: Response)
    requires !auth.Authorized?
    ensures r.Message? && r.status == 401
    ensures r.message == "No token provided" <==> auth == NoToken
    ensures auth != NoToken ==> r.message == "Invalid token"
  {
    if auth == NoToken then Message(401, "No token provided") else Message(401, "Invalid token")
  }

  // ---------------------------------------------------------------------------
  // The two handlers, on the user store `users` (user id to course list)

  /** GET: the stored list of the authenticated user. */
  function HandleGet(users: map<UserId, seq<Course>>, authorization: Option<string>, verify: Verifier): (r: Response)
    ensures r.status in {200, 401, 404}
    ensures r.status == 401 <==> !Authenticate(authorization, verify).Authorized?
    ensures r.status == 200 <==>
      Authenticate(authorization, verify).Authorized? && Authenticate(authorization, verify).userId in users
    ensures r.status == 200 ==> r == CourseList(200, users[Authenticate(authorization, verify).userId])
    ensures r.status == 404 ==> r == Message(404, "User not found")
  {
    var auth := Authenticate(authorization, verify);
    if !auth.Authorized? then Unauthorized(auth)
    else if auth.userId !in users then Message(404, "User not found")
    else CourseList(200, users[auth.userId])
  }

  datatype PostResult = PostResult(response: Response, users: map<UserId, seq<Course>>)

  /** POST: authenticate, validate the body, find the user, append the course. */
  function HandlePost(users: map<UserId, seq<Course>>, authorization: Option<string>, verify: Verifier, body: CourseBody): (r: PostResult)
    ensures r.response.status in {201, 400, 401, 404}
    ensures r.response.status == 401 <==> !Authenticate(authorization, verify).Authorized?
    ensures r.response.status == 400 <==>
      Authenticate(authorization, verify).Authorized? && ValidateBody(body).None?
    ensures r.response.status == 404 <==>
      Authenticate(authorization, verify).Authorized? && ValidateBody(body).Some? &&
      Authenticate(authorization, verify).userId !in users
    ensures r.response.status == 400 ==> r.response == Message(400, "All fields are required")
    ensures r.response.status == 404 ==> r.response == Message(404, "User not found")
    ensures r.response.status != 201 ==> r.users == users
    ensures r.response.status == 201 ==>
      r.response == Message(201, "Course added successfully") &&
      var u := Authenticate(authorization, verify).userId;
      u in users && r.users == users[u := users[u] + [ValidateBody(body).value]]
  {
    var auth := Authenticate(authorization, verify);
    if !auth.Authorized? then PostResult(Unauthorized(auth), users)
    else
      match ValidateBody(body)
      case None => PostResult(Message(400, "All fields are required"), users)
      case Some(course) =>
        if auth.userId !in users then PostResult(Message(404, "User not found"), users)
        else PostResult(Message(201, "Course added successfully"),
                        users[auth.userId := users[auth.userId] + [course]])
  }

  /** Every stored course has a non-empty name and non-zero credit hours and grade points. */
  predicate AllStorable(users: map<UserId, seq<Course>>) {
    forall u, i :: u in users && 0 <= i < |users[u]| ==> StorableCourse(users[u][i])
  }

  /**
   * A successful POST appends exactly one course at the end of the user's
   * list: the earlier courses keep their places, other users' lists and the
   * set of users are unchanged.
   */
  lemma PostAppendsOne(users: map<UserId, seq<Course>>, authorization: Option<string>, verify: Verifier, body: CourseBody)
    requires HandlePost(users, authorization, verify, body).response.status == 201
    ensures var r := HandlePost(users, authorization, verify, body);
      var u := Authenticate(authorization, verify).userId;
      u in users && u in r.users && r.users.Keys == users.Keys &&
      |r.users[u]| == |users[u]| + 1 &&
      r.users[u][..|users[u]|] == users[u] &&
      r.users[u][|users[u]|] == ValidateBody(body).value &&
      (forall v :: v in users && v != u ==> r.users[v] == users[v])
  {
    var r := HandlePost(users, authorization, verify, body);
    var u := Authenticate(authorization, verify).userId;
    assert (users[u] + [ValidateBody(body).value])[..|users[u]|] == users[u];
  }

  /** No request through this route stores a course with an empty name or a zero number. */
  lemma PostKeepsStorable(users: map<UserId, seq<Course>>, authorization: Option<string>, verify: Verifier, body: CourseBody)
    requires AllStorable(users)
    ensures AllStorable(HandlePost(users, authorization, verify, body).users)
  {
    var r := HandlePost(users, authorization, verify, body);
    if r.response.status == 201 {
      var u := Authenticate(authorization, verify).userId;
      var c := ValidateBody(body).value;
      forall v, i | v in r.users && 0 <= i < |r.users[v]|
        ensures StorableCourse(r.users[v][i])
      {
        if v == u && i == |users[u]| {
          assert r.users[v][i] == c;
        } else {
          assert r.users[v][i] == users[v][i];
        }
      }
    }
  }

  /**
   * After a successful POST, a GET with the same credentials answers 200
   * with the old list followed by the new course.
   */
  lemma GetAfterPost(users: map<UserId, seq<Course>>, authorization: Option<string>, verify: Verifier, body: CourseBody)
    requires HandlePost(users, authorization, verify, body).response.status == 201
    ensures var u := Authenticate(authorization, verify).userId;
      u in users &&
      HandleGet(HandlePost(users, authorization, verify, body).users, authorization, verify)
        == CourseList(200, users[u] + [ValidateBody(body).value])
  {
  }

  /** The course store of the back end; the handlers are its methods. */
  class CourseStore {
    var users: map<UserId, seq<Course>>

    constructor (initial: map<UserId, seq<Course>>)
      ensures users == initial
    {
      users := initial;
    }

    /** GET /api/courses */
    method GetCourses(authorization: Option<string>, verify: Verifier) returns (res: Response)
      ensures res == HandleGet(users, authorization, verify)
      ensures authorization == None ==> res == Message(401, "No token provided")
      ensures Authenticate(authorization, verify) == InvalidToken ==> res == Message(401, "Invalid token")
    {
      var auth := Authenticate(authorization, verify);
      if !auth.Authorized? {
        return Unauthorized(auth);
      }
      if auth.userId !in users {
        return Message(404, "User not found");
      }
      return CourseList(200, users[auth.userId]);
    }

    /** POST /api/courses */
    method AddCourse(authorization: Option<string>, verify: Verifier, body: CourseBody) returns (res: Response)
      modifies this
      ensures PostResult(res, users) == HandlePost(old(users), authorization, verify, body)
      ensures res.status != 201 ==> users == old(users)
      ensures old(AllStorable(users)) ==> AllStorable(users)
    {
      var auth := Authenticate(authorization, verify);
      if !auth.Authorized? {
        return Unauthorized(auth);
      }
      var course := ValidateBody(body);
      if course.None? {
        return Message(400, "All fields are required");
      }
      if auth.userId !in users {
        return Message(404, "User not found");
      }
      if AllStorable(users) {
        PostKeepsStorable(users, authorization, verify, body);
      }
      users := users[auth.userId := users[auth.userId] + [course.value]];
      return Message(201, "Course added successfully");
    }
  }
}
