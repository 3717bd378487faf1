# SmartLearn front-end core, modelled in Dafny

This project models the logic in the SmartLearn learning-platform front end:

- **The three data contexts.** `CourseProvider`, `LessonProvider` and `QuizProvider` are classes. Their fields are the React state the providers hold. Their methods are the provider operations.
  - Every HTTP request is replaced by an outcome parameter. It is either `Success(data)` or a failure of one of three shapes: a server reply with an optional message, no reply, or any other error with an optional message.
  - The contracts state the collection rule for each operation: append, replace by `_id` in place, remove by `_id` keeping order, or whole replacement.
  - They also state the request-state discipline: which operations reset `error`/`message`, the missing-token short-circuit, and `loading` ending false.
  - They state the error texts as well: the course context's three-way classification and the lesson context's server-message-or-fallback. The quiz context keeps no error; its contracts say which failures it rethrows.
- **The route gate of the app shell** (`Routes`).
  - `Decide(path, token)` says whether the router renders a route, redirects to `/login`, or has no route at all.
  - The matcher works on non-empty path segments. A `:name` segment matches any single segment, and literal segments compare ASCII-case-insensitively.
  - The user's role is not an input, because the gate never looks at it.
- **The navigation header** (`Header`). It covers:
  - the links shown for a guest and for each role;
  - the per-student enrollment filter and the four course links built per enrollment;
  - the promotion bar;
  - logout, modelled as a change to a browser object that holds storage and location.
- **The course list screen** (`CourseList`). It covers:
  - the case-insensitive search over title and category;
  - the four sort options, applied to a copy of the shown list;
  - resetting the shown list whenever the context's courses change.

  The sort is the stable sort that the ECMAScript standard (2019 edition, section 22.1.3.27) requires of `Array.prototype.sort`. It is computed by insertion and proved sorted, a permutation, and stable. The stability proof also covers 'Z to A', which is therefore not the reverse of 'A to Z'.

The modules, one per file:

- `Outcomes`: optional values, request outcomes, and JavaScript truthiness of strings.
- `Collections`: keyed records and the three list rebuilds.
- `Text`: ASCII lower-casing, `includes`, and a lexicographic order.
- `CourseContext`, `LessonContext`, `QuizContext`, `Routes`, `Header` and `CourseList`.

Where the code does something other than what it appears to intend, the model follows the code:

- `markLessonAsCompleted` reads a `response` it never declared. The operation therefore always ends in its catch block: it returns nothing and leaves the fallback error text, even when the POST succeeds.
- `fetchQuizById`, given a reply without `quiz`, throws when it reads `quiz.submissions`. The `|| {}` has no effect, and the catch block leaves `currentQuiz` null and the submissions empty.
- `quizSubmissions` starts as the empty object `{}`, which has no `filter` method. A `deleteSubmission` before any quiz has been fetched throws inside its `try`, and the throw is swallowed.
- The header prints a missing enrollment course id as `undefined` in the four link targets.
- The route `//quiz-submission-list/:quizId` has an empty first segment. The matcher drops empty segments, so that route matches `/quiz-submission-list/<id>`.

## Model

| member | source | states |
|---|---|---|
| Collections.Filter | src/Course/CourseList.jsx:69-73 | `filter` keeps the passing elements as an order-preserving subsequence. Each passing element occurs exactly as often as before, and a failing one not at all. |
| Collections.ReplaceById | src/ContextAPI/CourseContext.jsx:128 | The `map` by `_id` keeps the length. Every record with the id is replaced by the new record, and every other position is unchanged. |
| Collections.RemoveById | src/ContextAPI/CourseContext.jsx:154 | The `filter` by `_id` is an order-preserving subsequence. No record with the id remains, and every other record keeps its multiplicity. |
| Collections.RemoveKeepsUnique | src/ContextAPI/LessonContext.jsx:99 | Deleting by `_id` keeps the ids of a list unique. |
| Collections.ReplaceKeepsUnique | src/ContextAPI/LessonContext.jsx:80-82 | Updating by `_id` with a record that carries that id keeps the ids unique. |
| Collections.RemoveUniqueDropsOne | src/ContextAPI/QuizContext.jsx:117 | In a list with unique ids, a delete shortens the list by one when the id is present and leaves the length unchanged otherwise. |
| Collections.RemoveAfterReplace | src/ContextAPI/QuizContext.jsx:98-117 | Deleting an id after updating it gives the same list as deleting it straight away. |
| Text.Lower | src/Course/CourseList.jsx:71-72 | The stand-in for `toLowerCase` keeps the length, lower-cases each ASCII letter and keeps every other character (it is weaker than `toLowerCase`, see "## Left out"). |
| Text.Contains | src/Course/CourseList.jsx:71-72 | `includes`, as a scan over the start positions; its meaning is stated by `Text.ContainsIffOccurs`. |
| Text.LexLess | src/Course/CourseList.jsx:52 | Code-unit lexicographic order, the stand-in for `localeCompare`; its order properties are the four lemmas below. |
| Text.LowerIdempotent | src/Course/CourseList.jsx:71-72 | Lower-casing twice is the same as lower-casing once. |
| Text.ContainsIffOccurs | src/Course/CourseList.jsx:71-72 | The `includes` scan is true exactly when the needle occurs at some position of the haystack. |
| Text.ContainsEmpty | src/Course/CourseList.jsx:71-72 | Every string includes the empty string. |
| Text.LexLessIrreflexive | src/Course/CourseList.jsx:52 | No title sorts strictly before itself. |
| Text.LexLessTransitive | src/Course/CourseList.jsx:52 | The title order is transitive. |
| Text.LexLessTotal | src/Course/CourseList.jsx:52 | Any two distinct titles are ordered one way or the other. |
| Text.LexNotLessTransitive | src/Course/CourseList.jsx:52 | "Does not sort before" is transitive. |
| Outcomes.Truthy | src/App.jsx:62 | A missing string and the empty string are falsy, any other string is truthy (`!!` and `||` on strings). |
| Outcomes.OrElse | src/ContextAPI/CourseContext.jsx:166 | A message or its fallback: the string when it is truthy, the fallback otherwise. |
| Routes.IsAuthenticated | src/App.jsx:62 | Authenticated exactly when the stored token is a non-empty string. |
| Routes.PublicRoutes | src/App.jsx:74-81 | The eight public patterns, in segment form. |
| Routes.ProtectedRoutes | src/App.jsx:85-110 | The twenty-six protected patterns, in segment form. |
| Routes.Segments | src/App.jsx:73-112 | A path splits into non-empty segments that contain no `/`. |
| Routes.SegmentsOfJoin | src/App.jsx:73-112 | Splitting the path built from non-empty, slash-free segments gives back exactly those segments. |
| Routes.SegmentMatches | src/App.jsx:74-110 | A `:name` segment matches any segment; a literal matches a segment equal to it up to ASCII letter case. |
| Routes.Matches | src/App.jsx:73-112 | A pattern matches a path when they have the same number of segments and each pattern segment matches. |
| Routes.Decide | src/App.jsx:62-112 | Public paths render; otherwise an authenticated visitor gets a protected route or no route, and an unauthenticated one is redirected to `/login`. The role is not an input. Its properties are the lemmas below. |
| Routes.DistinctSound | src/App.jsx:74-110 | Two patterns that differ in segment count, or in the length or first letter of a literal first segment, never match the same path. |
| Routes.TablesDistinct | src/App.jsx:74-110 | Each of the eight public patterns is distinct from each of the twenty-six protected ones. |
| Routes.PublicProtectedDisjoint | src/App.jsx:74-111 | No path matches both a public and a protected route. |
| Routes.PublicAlwaysRendered | src/App.jsx:74-81 | A public path renders, whatever is stored as the token. |
| Routes.ProtectedRenderedIffAuthenticated | src/App.jsx:83-111 | A protected path renders if and only if the token is a non-empty string. Otherwise it redirects to `/login`. |
| Routes.UnauthenticatedRedirects | src/App.jsx:112 | Without a token, every non-public path redirects to `/login`. |
| Routes.AuthenticatedUnknownPathHasNoRoute | src/App.jsx:83-112 | With a token, a path that matches no pattern gets no route and no redirect. |
| Routes.DecisionShape | src/App.jsx:62-112 | A redirect happens exactly for unauthenticated non-public paths. "No route" happens only when authenticated. |
| Header.Bar | src/Pages/Header.jsx:71-129 | The guest links and buttons with no user; otherwise the role's links, the name badge and the logout button. Its cases are the lemmas below. |
| Header.RoleLinks | src/Pages/Header.jsx:78-114 | The links for each of the three roles, and none for any other role. |
| Header.LinksFor | src/Pages/Header.jsx:103-106 | The four links of one enrollment, each ending in its course id. |
| Header.CourseSegment | src/Pages/Header.jsx:103-106 | The course id as the template literal prints it: `undefined` when missing. |
| Header.EnrollmentFetchFor | src/Pages/Header.jsx:25-28 | The enrollments are fetched, for the user's `userId`, only when there is a user with a truthy `userId`. |
| Header.StoredToken | src/Pages/Header.jsx:17 | The value stored under `token`, if any. |
| Header.HeaderState.View | src/Pages/Header.jsx:42-131 | What the header shows for the context's user and the kept enrollments. |
| Header.FilterEnrollments | src/Pages/Header.jsx:33 | The kept enrollments are an order-preserving subsequence. They are exactly those whose user `_id` is the signed-in user's, each with its multiplicity. |
| Header.EnrollmentLinks | src/Pages/Header.jsx:101-108 | Each kept enrollment contributes exactly four links, in enrollment order. |
| Header.AdminLinks | src/Pages/Header.jsx:78-87 | An admin sees exactly Users, Courses-Management, Enrollments and Back. |
| Header.InstructorLinks | src/Pages/Header.jsx:88-95 | An instructor sees exactly Courses-Management and Back. |
| Header.StudentLinks | src/Pages/Header.jsx:96-114 | A student sees Courses, then Profile, then four links per kept enrollment (assignments, quizzes, lessons, progress report of its course), then Back. |
| Header.UnknownRoleLinks | src/Pages/Header.jsx:78-124 | Any other role gets no navigation links, but still gets the name badge and the logout button. |
| Header.GuestBar | src/Pages/Header.jsx:71-129 | A guest sees Home, About and Courses, and the Login and Register buttons. |
| Header.StudentLinksAreOwnCourses | src/Pages/Header.jsx:33 | Every kept enrollment is one of the context's enrollments and belongs to the signed-in user. |
| Header.LogoutLocksProtectedRoutes | src/Pages/Header.jsx:16-19 | Once the gate is evaluated again on the storage logout leaves (that is, once App renders again), every protected path redirects to `/login`. |
| Header.HeaderState.constructor | src/Pages/Header.jsx:13-14 | The promotion bar starts visible, and the kept enrollments start empty. |
| Header.HeaderState.CloseSmartBar | src/Pages/Header.jsx:20-22 | Closing hides the promotion bar and nothing else. |
| Header.HeaderState.SyncFilteredEnrollments | src/Pages/Header.jsx:25-36 | The kept list is replaced by the filter only when the enrollments are an array and the user has a truthy `userId`. Otherwise it stays. |
| Header.HeaderState.HandleLogout | src/Pages/Header.jsx:16-19 | Logout removes only the `token` key from storage and goes to `/login`. |
| CourseContext.BuildFormData | src/ContextAPI/CourseContext.jsx:78-84 | The form holds every data field in order, then each media file under `media`, and nothing else. |
| CourseContext.HandleErrorText | src/ContextAPI/CourseContext.jsx:163-173 | A server reply gives its non-empty message or 'An error occurred.'. No reply gives 'No response from the server.'. Anything else gives its non-empty message or 'An unexpected error occurred.'. The text is never empty. |
| CourseContext.CourseProvider.constructor | src/ContextAPI/CourseContext.jsx:8-12 | No courses, no selection, not loading, and no error or message. |
| CourseContext.CourseProvider.ResetMessages | src/ContextAPI/CourseContext.jsx:14-17 | Clears `error` and `message`. |
| CourseContext.CourseProvider.HandleError | src/ContextAPI/CourseContext.jsx:163-175 | Sets `error` to the classified text. |
| CourseContext.CourseProvider.FetchCourses | src/ContextAPI/CourseContext.jsx:19-41 | With no token, nothing is sent, the error is 'No token available. Please log in.', and the list is unchanged. On success the list is replaced. On failure the list stays and the error is classified. Loading ends false, and the message is cleared in every case. |
| CourseContext.CourseProvider.FetchCourseById | src/ContextAPI/CourseContext.jsx:43-65 | Same token rule. On success the selection becomes the server's course; on failure it stays and the error is classified. The list is never touched. |
| CourseContext.CourseProvider.CreateCourse | src/ContextAPI/CourseContext.jsx:67-100 | Same token rule, and the body has every field and file. On success exactly the created course is appended, and then the refresh clears the message and replaces the list if it succeeds. On failure the list stays. |
| CourseContext.CourseProvider.UpdateCourse | src/ContextAPI/CourseContext.jsx:102-136 | Same token rule. On success the updated list is the replace-by-`_id` of the old one, with message 'Course Updated Successfully!'. On failure the list stays and there is no message. |
| CourseContext.CourseProvider.DeleteCourse | src/ContextAPI/CourseContext.jsx:138-161 | Same token rule. On success the list is the remove-by-`_id` of the old one, with message 'Course Deleted Successfully!'. On failure the list stays. |
| LessonContext.ErrorText | src/ContextAPI/LessonContext.jsx:27 | The server's non-empty message is used when there is one. Otherwise the operation's fallback text is used. |
| LessonContext.LessonProvider.constructor | src/ContextAPI/LessonContext.jsx:11-14 | No lessons, an empty and immutable `currentLesson`, not loading, and no error. |
| LessonContext.LessonProvider.FetchLessonsByCourseId | src/ContextAPI/LessonContext.jsx:17-31 | On success the list is replaced and an earlier error is kept. On failure the list stays and the error is the server message or 'Failed to fetch lessons'. Loading ends false. |
| LessonContext.LessonProvider.FetchLessonById | src/ContextAPI/LessonContext.jsx:34-50 | Returns the lesson on success and nothing on failure. The lesson list is not touched. |
| LessonContext.LessonProvider.CreateLesson | src/ContextAPI/LessonContext.jsx:53-68 | On success exactly the new lesson is appended. On failure the list stays, with 'Failed to create lesson' as the fallback text. |
| LessonContext.LessonProvider.UpdateLesson | src/ContextAPI/LessonContext.jsx:71-88 | On success the list is the replace-by-`_id`. On failure the list stays. |
| LessonContext.LessonProvider.DeleteLesson | src/ContextAPI/LessonContext.jsx:91-105 | On success the list is the remove-by-`_id`. On failure the list stays. |
| LessonContext.LessonProvider.MarkLessonAsCompleted | src/ContextAPI/LessonContext.jsx:109-127 | Returns nothing, whatever the POST does. After a successful POST the error is 'Failed to update lesson completion status'. |
| LessonContext.LessonProvider.FetchCourseProgress | src/ContextAPI/LessonContext.jsx:130-145 | Returns the report on success and nothing on failure. The lessons are not touched. |
| LessonContext.LessonProvider.FetchCompletedStudents | src/ContextAPI/LessonContext.jsx:148-162 | Returns the students on success and nothing on failure. The lessons are not touched. |
| QuizContext.QuizProvider.constructor | src/ContextAPI/QuizContext.jsx:7-13 | No quizzes, zero count and grade, not loading, submissions `{}`, and current quiz `{}`. |
| QuizContext.QuizProvider.FetchQuizzesByCourseId | src/ContextAPI/QuizContext.jsx:15-35 | A request is sent only for a truthy course id. Only a success sets the quizzes and the count. Loading ends false. |
| QuizContext.QuizProvider.FetchQuizById | src/ContextAPI/QuizContext.jsx:36-70 | A missing id rejects before `loading` is touched. A reply with a quiz selects it and lists its submissions. A failure, or a reply without a quiz, leaves it null with an empty list, and neither is rethrown. |
| QuizContext.QuizProvider.CreateQuiz | src/ContextAPI/QuizContext.jsx:74-88 | On success exactly the created quiz is appended and returned. On failure the list stays and the failure is rethrown. |
| QuizContext.QuizProvider.UpdateQuiz | src/ContextAPI/QuizContext.jsx:90-108 | On success the list is the replace-by-`_id`. On failure the list stays and the failure is rethrown. |
| QuizContext.QuizProvider.DeleteQuiz | src/ContextAPI/QuizContext.jsx:110-121 | On success the list is the remove-by-`_id`. On failure the list stays, and the failure is not rethrown. |
| QuizContext.QuizProvider.UpdateQuizGrade | src/ContextAPI/QuizContext.jsx:123-138 | On success the grade becomes the returned score. On failure it stays and the failure is rethrown. |
| QuizContext.QuizProvider.FetchTotalQuizGrade | src/ContextAPI/QuizContext.jsx:141-157 | The grade becomes the total, or 0 when the total is missing or the request fails. |
| QuizContext.QuizProvider.DeleteSubmission | src/ContextAPI/QuizContext.jsx:158-173 | On success, a listed set of submissions becomes its remove-by-`_id`. A failure, or the initial `{}`, leaves it unchanged. |
| CourseList.FieldMatches | src/Course/CourseList.jsx:71-72 | A present field matches when its lower-cased text includes the lower-cased term; a missing one never does. |
| CourseList.MatchesSearch | src/Course/CourseList.jsx:69-73 | A course matches when its title or its category does. |
| CourseList.CourseListView.FilteredCourses | src/Course/CourseList.jsx:69-73 | The shown courses: the search applied to the shown list. |
| CourseList.OrderFor | src/Course/CourseList.jsx:50-64 | The four option strings select the four orders; any other string selects none. |
| CourseList.TitleKey | src/Course/CourseList.jsx:52-55 | The title compared, with a missing title taken as empty (see "## Left out"). |
| CourseList.Precedes | src/Course/CourseList.jsx:50-62 | The comparator is negative: ascending or descending title, ascending or descending price. |
| CourseList.SortCourses | src/Course/CourseList.jsx:47-67 | The sorted copy is a permutation of the shown list; an unrecognised option gives the list itself. |
| CourseList.FilterCourses | src/Course/CourseList.jsx:69-73 | The shown courses are an order-preserving subsequence. They are exactly the matching courses, each with its multiplicity. |
| CourseList.FieldMatchesIffOccurs | src/Course/CourseList.jsx:71-72 | A present field matches exactly when the lower-cased term occurs in its lower-cased text. |
| CourseList.EmptySearchKeepsNamedCourses | src/Course/CourseList.jsx:69-73 | The empty term keeps exactly the courses that have a title or a category. |
| CourseList.SearchIgnoresTermCase | src/Course/CourseList.jsx:71-72 | The search gives the same answer for a term and for its lower-cased form. |
| CourseList.SearchIgnoresFieldCase | src/Course/CourseList.jsx:71-72 | The search gives the same answer for a field and for its lower-cased form. |
| CourseList.PrecedesIrreflexive | src/Course/CourseList.jsx:50-62 | No comparator puts a course before itself. |
| CourseList.PrecedesTransitive | src/Course/CourseList.jsx:50-62 | Each comparator's "before" is transitive. |
| CourseList.NotPrecedesTransitive | src/Course/CourseList.jsx:50-62 | Each comparator's "not before" is transitive, so every comparator is consistent. |
| CourseList.TiedTransitive | src/Course/CourseList.jsx:50-62 | Two courses tied with a third are tied with each other. |
| CourseList.Insert | src/Course/CourseList.jsx:49-66 | Insertion adds exactly the one course. |
| CourseList.SortBy | src/Course/CourseList.jsx:49-66 | Sorting is a permutation of the input. |
| CourseList.InsertSorted | src/Course/CourseList.jsx:49-66 | Inserting into a sorted list keeps it sorted. |
| CourseList.SortBySorted | src/Course/CourseList.jsx:50-62 | No later course in the result sorts before an earlier one. |
| CourseList.InsertTies | src/Course/CourseList.jsx:50-62 | An inserted course lands in front of the courses it is tied with. |
| CourseList.SortByStable | src/Course/CourseList.jsx:50-62 | Courses tied under the comparator keep their relative order. |
| CourseList.SortCoursesCorrect | src/Course/CourseList.jsx:47-67 | A recognised option gives a sorted, stable permutation of the shown list. An unrecognised option gives the list unchanged. |
| CourseList.DescendingKeepsTiesInOrder | src/Course/CourseList.jsx:52-56 | Two courses with the same title keep their order under both 'A to Z' and 'Z to A'. |
| CourseList.CourseListView.constructor | src/Course/CourseList.jsx:15-17 | Empty term, empty option, and an empty shown list. |
| CourseList.CourseListView.CoursesChanged | src/Course/CourseList.jsx:24-26 | The shown list becomes the context's courses, discarding any sort. |
| CourseList.CourseListView.HandleSearch | src/Course/CourseList.jsx:43-45 | The search term becomes the typed value. |
| CourseList.CourseListView.HandleSort | src/Course/CourseList.jsx:47-67 | Records the option and shows the sorted copy of the shown list. |

## Left out

- HTTP: the axios calls, URLs, headers and multipart encoding are not modelled. Each request is an outcome parameter. Path ids such as `courseId` in a URL only choose the outcome, so they are not parameters.
- `localStorage` is not modelled as such. The stored token is an `Option<string>` field in the course context, and logout works on a storage map. The lesson and quiz contexts send whatever is stored, so the token does not appear there.
- React: rendering, effect scheduling, batching, and the interleaving of concurrent requests are not modelled. The un-awaited refresh in `createCourse` is modelled as finishing before the operation does. In the code it may finish later and set `loading` false then.
- React closures: `updateCourse`, `deleteCourse`, `deleteQuiz` and `deleteSubmission` rebuild the list the closure captured, not the latest state. Operations here run one after another, so the two are the same.
- App: `isAuthenticated` is read when App renders, not when the path is visited. `Routes.Decide` takes the token current at the time of the decision.
- Routes.SegmentMatches: case folding is ASCII only. URL decoding, trailing-splat patterns and react-router's ranking are not modelled. react-router matches a visited path against a pattern that tolerates only trailing slashes; the model also collapses leading and inner repeated slashes, so `//courses` renders here as `/courses` does, where the router would find no match and, without a token, redirect.
- Text.Lower: lower-cases ASCII letters only. `toLowerCase` maps every Unicode letter, and some mappings change the length ('İ' becomes two code units). So for the title "École" and the term "éc" the code keeps the course and `CourseList.FilterCourses` drops it.
- Header.LogoutLocksProtectedRoutes: proved for a gate evaluated on the storage logout leaves. App reads the token only when it renders, and logout only navigates, which does not render App again. Until App renders again (a page reload, say), the protected routes stay mounted and there is no `*` route, so `/users-details` still renders after logout.
- QuizContext.QuizProvider.FetchQuizById: resolves with `response.data`, where the code returns the whole axios response; its status and headers are not modelled.
- CourseList.TitleKey: a course without a title sorts as if its title were empty. In the code the comparator throws a `TypeError` for such a course, and which comparisons are made is up to the engine.
- CourseList.Precedes: `localeCompare` is replaced by code-unit lexicographic order. Prices are integers, so JavaScript number subtraction and `NaN` are not modelled.
- CourseList.CourseListView.HandleSort: the copy and the in-place `sort` are modelled as values. The model does not capture array aliasing, only that the shown list is rebuilt from the old one.
- CourseContext.HandleErrorText: a server reply without `data` makes `err.response.data.message` throw inside the catch block. This is modelled as a reply with no message.
- Collections.Entity: every record is assumed to carry an `_id` string.
- Console logging, antd toasts and the unused `storeQuizScore` state are not modelled.
- The registration form (its validation belongs to the Yup library), the About page, and the course details and quiz submission list pages are presentation only and are not part of this model.
