# CGPA calculator: a verified model

This project models the logic of a small academic-records web application.
Users keep a list of courses. Each course has a name, credit hours and grade
points. The application shows a cumulative grade-point average (CGPA). Four
pieces are modelled:

- **Dashboard** (`frontend/src/Dashboard.js`). The "Calculate CGPA" button sums
  credit hours and grade points over the course list. It divides the two and
  rounds to two decimals. An empty list or a zero credit total gives no value.
  The add-course form validates its three fields. It derives grade points as
  credit hours × GPA. Each listed course shows its own GPA, or `-`.
- **Calculator page** (`src/App.js`). This page divides one credit-hour total
  into one grade-point total, after validation. A reset button clears it.
- **API base URL** (`frontend/src/config.js`). It takes the environment value
  or a built-in default, and makes sure the result ends in `/api`.
- **Course route** (`backend/routes/courses.js`). A bearer-token middleware
  guards it (401). GET lists the user's courses (200, or 404 for an unknown
  user). POST checks for falsy fields (400) and an unknown user (404). On
  success it appends one course (201).

Modelling choices:

- Numbers are Dafny `real`, so arithmetic is exact.
- `toFixed(2)` is `Rounding.Round2`. It rounds the magnitude to the nearest
  hundredth with ties going up, then restores the sign, as ECMAScript's
  `Number.prototype.toFixed` does. The model keeps the number the string
  denotes, not the string.
- `parseFloat` followed by `isNaN` is a function parameter
  `string -> Option<real>`. `None` stands for NaN.
- `jwt.verify`, followed by reading `decoded.userId`, is a function parameter
  `string -> Option<UserId>`.
- The user store is a `map<UserId, seq<Course>>`.
- Whether the dashboard's POST over the network succeeds is a `bool`
  parameter.
- React component state becomes a class with one field per `useState`:
  `DashboardState` for the dashboard and `CalculatorState` for the calculator
  page. Their methods change those fields.
- The back end's user collection becomes the class `CourseStore`, whose one
  field maps each user to that user's course list.
- The methods that compute a result (`CalculateCgpa`, `AddCourse` on both
  classes, `HandleCalculateCgpa`, `GetCourses`) are tied to a pure function,
  and the properties are proved about that function. `HandleReset`,
  `ReceiveCourses` and the constructors state the new fields directly.

The repository's white-box test re-implements the CGPA computation
differently from the dashboard, and the model follows `Dashboard.js`:

- For a zero credit total the test returns 0
  (`Test cases/whitebox_test.js:16`); `Dashboard.js:111-113` gives `null`.
- The test also computes an average GPA and counts of "high performing" and
  "needs improvement" courses (`Test cases/whitebox_test.js:19-39`).
  `Dashboard.js` computes none of these, so they are not modelled.

Two consequences of the code are proved as stated:

- The route rejects a course whose credit hours or GPA is `0`, although the
  form accepts it (`EndToEnd.FormCourseAcceptedByRoute`).
- A base URL ending in `/api/` becomes `.../api/api`
  (`Config.NormaliseDoublesApiAfterSlash`).

## Model

| member | source | states |
|---|---|---|
| Rounding.Round2 | frontend/src/Dashboard.js:116 | `toFixed(2)` gives a value with at most two decimals and the same sign, within 0.005 of the input, an exact tie going away from zero |
| Rounding.Round2TiesAwayFromZero | frontend/src/Dashboard.js:116 | `0.125` rounds to `0.13` and `-0.125` to `-0.13` |
| Rounding.Round2Exact | frontend/src/Dashboard.js:188 | a value that already has two decimals is shown unchanged |
| Rounding.Round2Idempotent | src/App.js:34 | rounding an already rounded value changes nothing |
| Rounding.Round2Monotone | frontend/src/Dashboard.js:116 | rounding keeps the order of two values |
| CourseModel.SumOfConcat | frontend/src/Dashboard.js:103-110 | the `reduce` sum over two lists placed end to end is the sum of the two sums |
| CourseModel.SumOfRemove | frontend/src/Dashboard.js:103-110 | taking one course out of a list takes its value out of the sum |
| CourseModel.SumOfPermutation | frontend/src/Dashboard.js:103-110 | the sum over a list does not depend on the order of its courses |
| CourseModel.SumOf | frontend/src/Dashboard.js:103-110 | the `reduce` fold starts at 0: no course sums to 0, and one course sums to its own value |
| CourseModel.TotalCreditHours | frontend/src/Dashboard.js:103-106 | the credit-hour total is 0 for no course and that course's credit hours for one |
| CourseModel.TotalGradePoints | frontend/src/Dashboard.js:107-110 | the grade-point total is 0 for no course and that course's grade points for one |
| CourseModel.TotalsNonNegative | frontend/src/Dashboard.js:103-110 | with no negative credit hours the credit total is non-negative; with no negative grade points either, so is the grade-point total |
| Dashboard.Cgpa | frontend/src/Dashboard.js:98-117 | the stored CGPA, when there is one, has at most two decimals |
| Dashboard.DashboardState.CalculateCgpa | frontend/src/Dashboard.js:98-117 | an empty list and a zero credit total give `null`; otherwise the CGPA is the grade-point total over the credit total, rounded to two decimals |
| Dashboard.CgpaPermutationInvariant | frontend/src/Dashboard.js:103-116 | permuting the course list does not change the CGPA |
| Dashboard.WeightedTotalsBounds | frontend/src/Dashboard.js:59 | for form-built courses with positive credit hours and GPAs in lo..hi, the grade-point total lies between lo and hi times the credit total |
| Dashboard.CgpaWithinGpaRange | frontend/src/Dashboard.js:103-116 | for such courses the unrounded CGPA lies in lo..hi and the shown CGPA between the roundings of lo and hi |
| Dashboard.CourseGpaCell | frontend/src/Dashboard.js:187-189 | the GPA cell is `-` exactly when credit hours or grade points is 0; a shown value has two decimals |
| Dashboard.CourseGpaCellRecoversGpa | frontend/src/Dashboard.js:59 | for a form-built course the cell is `-` exactly when credit hours or GPA is 0, and otherwise shows the entered GPA rounded (the GPA itself when it had two decimals) |
| Dashboard.ValidateForm | frontend/src/Dashboard.js:48-59 | an empty field gives "fill out all fields", an unparsable number gives "must be valid numbers", and otherwise the course has the entered name and credit hours and grade points = credit hours × GPA |
| Dashboard.DashboardState.AddCourse | frontend/src/Dashboard.js:47-81 | the outcome is the form validation; the fields are cleared only after a ready course was posted, and are unchanged otherwise |
| Dashboard.DashboardState.ReceiveCourses | frontend/src/Dashboard.js:40 | the fetched list replaces the shown list |
| Dashboard.DashboardState.constructor | frontend/src/Dashboard.js:18-22 | an empty list, empty form fields and no CGPA |
| Calculator.SingleEntryCgpa | src/App.js:17-35 | a value exactly when both inputs parse and the credit hours are positive; grade points are not range-checked |
| Calculator.CalculatorState.HandleCalculateCgpa | src/App.js:17-35 | unparsable input or credit hours ≤ 0 give `null`; otherwise the rounded ratio, with the inputs unchanged |
| Calculator.CalculatorState.HandleReset | src/App.js:37-41 | both inputs become empty and the CGPA `null`, whatever they held |
| Calculator.CalculatorState.constructor | src/App.js:13-15 | empty inputs and no CGPA |
| Calculator.SingleEntryMatchesDashboard | src/App.js:23-34 | the calculator equals the dashboard on a one-course list exactly when the credit hours are not negative |
| Calculator.SingleEntryUncheckedGradePoints | src/App.js:23-34 | positive credit hours always give a value; non-positive grade points give a non-positive CGPA; 0..4 points per credit hour give a CGPA within 0..4 |
| Config.BaseUrl | frontend/src/config.js:2 | an absent or empty environment value falls back to the built-in URL, any other is used as it is |
| Config.ConfigureApiUrl | frontend/src/config.js:2-12 | the configured URL is the normalised base URL and ends with `/api` |
| Config.Normalise | frontend/src/config.js:5-10 | the suffix rule gives a URL ending in `/api` and keeps a URL that already ends in `/api` |
| Config.NormaliseIdempotent | frontend/src/config.js:5-10 | normalising a normalised URL changes nothing |
| Config.NormaliseCases | frontend/src/config.js:5-9 | a URL ending in `/` but not `/api` loses exactly that `/` and gains `/api`; any other URL not ending in `/api` gains `/api` |
| Config.NormaliseDoublesApiAfterSlash | frontend/src/config.js:5-9 | a URL ending in `/api/` becomes `.../api/api` |
| Config.DefaultIsNormal | frontend/src/config.js:2 | an absent or empty environment value yields the default URL unchanged |
| CoursesRoute.Split | backend/routes/courses.js:17 | `split(' ')` gives at least one field and no field contains the separator |
| CoursesRoute.SplitFieldCount | backend/routes/courses.js:17 | `split(' ')` gives one field more than the header has spaces |
| CoursesRoute.JoinSplit | backend/routes/courses.js:17 | joining the fields of a split gives back the header |
| CoursesRoute.SplitJoin | backend/routes/courses.js:17 | splitting separator-free fields joined by the separator gives back the fields |
| CoursesRoute.BearerToken | backend/routes/courses.js:17 | the token is a separator-free field |
| CoursesRoute.BearerTokenOfScheme | backend/routes/courses.js:17 | for `<scheme> <token>` the token is the text after the space |
| CoursesRoute.BearerTokenNeedsSpace | backend/routes/courses.js:17-21 | a header without a space has no token |
| CoursesRoute.Authenticate | backend/routes/courses.js:11-26 | a missing or empty header gives "No token provided"; the request is authorised exactly when the second field verifies, with the decoded user id |
| CoursesRoute.Unauthorized | backend/routes/courses.js:13-21 | a stopped request gets 401, with "No token provided" exactly when the header was missing and "Invalid token" otherwise |
| CoursesRoute.ValidateBody | backend/routes/courses.js:44-49 | the body is accepted exactly when name, credit hours and grade points are all truthy, and the course carries exactly those fields |
| CoursesRoute.HandleGet | backend/routes/courses.js:29-39 | 401 exactly when authentication fails, 200 with the stored list unchanged exactly for a known user, otherwise 404 with "User not found" |
| CoursesRoute.HandlePost | backend/routes/courses.js:42-71 | 401, then 400 with "All fields are required" for a falsy field, then 404 with "User not found" for an unknown user, each leaving the store unchanged; 201 appends the course to that user's list |
| CoursesRoute.PostAppendsOne | backend/routes/courses.js:57-61 | a 201 adds exactly one course at the end of the user's list, keeps the earlier courses, the set of users and every other user's list |
| CoursesRoute.PostKeepsStorable | backend/routes/courses.js:47-61 | the route never stores a course with an empty name or 0 credit hours or 0 grade points |
| CoursesRoute.GetAfterPost | backend/routes/courses.js:35 | after a 201, a GET with the same header returns the old list followed by the new course |
| CoursesRoute.CourseStore.GetCourses | backend/routes/courses.js:29-39 | the response is the GET handler's on the current store; a missing header gives "No token provided" |
| CoursesRoute.CourseStore.AddCourse | backend/routes/courses.js:42-71 | response and new store are the POST handler's on the old store; a rejected request changes nothing; the storable invariant is kept |
| CoursesRoute.CourseStore.constructor | backend/models/User.js:10-22 | the store starts with the given users and their course lists |
| EndToEnd.BearerHeader | frontend/src/Dashboard.js:69 | the header is `Bearer ` followed by the token, and the middleware's `split(' ')[1]` reads a space-free token back from it |
| EndToEnd.BodyOf | frontend/src/Dashboard.js:64-68 | the posted body passes the route's validation exactly when the course has a non-empty name and non-zero numbers, and then yields that same course |
| EndToEnd.BearerHeaderAuthenticates | frontend/src/Dashboard.js:69 | the dashboard's `Bearer <token>` header passes the middleware exactly when the token verifies |
| EndToEnd.FormCourseAcceptedByRoute | backend/routes/courses.js:47-49 | a course the form accepts is accepted by the route exactly when its credit hours and GPA are both non-zero |
| EndToEnd.AddedCourseIsListedWithItsGpa | frontend/src/Dashboard.js:59-76 | a valid non-zero entry by a known user is answered 201, the next listing ends with it, and its GPA cell shows the entered GPA rounded |

## Left out

- Rendering: the JSX of both pages, the `{cgpa && ...}` display guard, routing,
  `navigate` and the `localStorage` token read. These are presentation only.
- Network calls. The axios calls in `fetchCourses`, `deleteCourse` and
  `addCourse` are I/O. `Dashboard.DashboardState.ReceiveCourses` takes the
  fetched list as a parameter. `Dashboard.DashboardState.AddCourse` takes the
  POST outcome as a parameter.
- Dashboard.DashboardState.AddCourse: does not model the `fetchCourses()`
  refresh after a successful POST, because that refresh is another network
  call. The course list is unchanged by the method.
- `deleteCourse`. The dashboard sends a DELETE to `/api/courses/<id>`
  (`frontend/src/Dashboard.js:86`), but `backend/routes/courses.js` defines
  only GET and POST, and `backend/server.js:16` mounts only that router under
  `/api/courses`, so the DELETE reaches no handler.
- `frontend/src/api.js` (axios interceptors and logging), `backend/server.js`
  (express, mongoose and CORS wiring) and `backend/routes/auth.js` (bcrypt and
  JWT calls). These are foreign calls.
- The 500 paths of the course route. These are exceptions thrown by the
  database or by `user.save()`, which the model treats as always succeeding.
- Mongoose casting of request fields. The POST body is modelled with the
  schema's types: a text name and numeric credit hours and grade points. A
  field of another JSON type is outside the model.
- The `console.log` lines of `frontend/src/config.js` (logging) and the
  `alert` pop-ups. The first two alerts ("Please fill out all fields", "must
  be valid numbers") are the constructors `MissingField` and `NotANumber` of
  `Dashboard.FormResult`. The third, "Error adding course"
  (`frontend/src/Dashboard.js:79`), is the case `posted == false` of
  `Dashboard.DashboardState.AddCourse`.
- The `_id` that the database gives each pushed course is not a field of
  `Course`. The dashboard uses it as the list key and for deletion
  (`frontend/src/Dashboard.js:172`, `:199`). So
  `CoursesRoute.GetAfterPost` states "the old list followed by the new
  course" only up to that generated id.
- IEEE-754 double arithmetic and the binary rounding of `toFixed(2)`. Numbers
  are exact reals.
- The grammar of `parseFloat`. It is a parameter of the model.
- JWT signing and verification. Verification is a parameter of the model.
- Token expiry and the clock. Tokens are signed to expire after one hour
  (`backend/routes/auth.js:64-66`), and an expired token fails verification
  with 401 (`backend/routes/courses.js:19-21`). A `CoursesRoute.Verifier` is
  verification at one instant. `CoursesRoute.GetAfterPost` and
  `EndToEnd.AddedCourseIsListedWithItsGpa` pass one verifier to the POST and
  the GET, so they assume the token still verifies at the GET.
- The library's rejection of an empty token. `jsonwebtoken` rejects `""`
  ("jwt must be provided"), but a header `"Bearer "` yields the token `""`,
  and a `CoursesRoute.Verifier` may accept it. No proved property depends on
  this.
