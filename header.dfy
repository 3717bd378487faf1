/** The navigation header: which links it shows for a guest and for each role,
    the per-student course links built from that student's enrollments, the
    dismissible promotion bar, and logout. */
module Header {
  import opened Outcomes
  import Collections
  import Routes

  /** The signed-in user held by the authentication context. */
  datatype User = User(userId: Option<string>, firstName: string, lastName: string, role: string)

  /** An enrollment as the enrollment context returns it: `userId` is
      `enrollment.user._id` and `courseId` is `enrollment.course?._id`, each
      missing when the nested object (or its `_id`) is. */
  datatype Enrollment = Enrollment(id: string, userId: Option<string>, courseId: Option<string>)

  datatype NavItem =
    | Link(caption: string, to: string)
    | BackButton
    | UserBadge(text: string)
    | LogoutButton

  /** The left-hand navigation links and the right-hand account area. */
  datatype NavBar = NavBar(links: seq<NavItem>, account: seq<NavItem>)

  /** The enrollments the header keeps for the signed-in user: those whose
      user's `_id` is `userId`, in their original order. */
  function FilterEnrollments(enrollments: seq<Enrollment>, userId: string): (r: seq<Enrollment>)
    ensures Collections.IsSubsequence(r, enrollments)
    ensures forall e :: multiset(r)[e] == if e.userId == Some(userId) then multiset(enrollments)[e] else 0
  {
    Collections.Filter(enrollments, (e: Enrollment) => e.userId == Some(userId))
  }

  /** A template literal `${enrollment.course?._id}`: a missing id prints as
      "undefined". */
  function CourseSegment(e: Enrollment): string {
    match e.courseId
    case Some(id) => id
    case None => "undefined"
  }

  /** The four links shown for one enrollment, each ending in its course id. */
  function LinksFor(e: Enrollment): seq<NavItem> {
    var id := CourseSegment(e);
    [Link("Assignments", "/assignments/" + id), Link("Quizzes", "/quizzes/" + id),
     Link("Lessons", "/lessons/" + id), Link("Progress Report", "/progress-report/" + id)]
  }

  /** The links of all kept enrollments, four per enrollment, in order. */
  function EnrollmentLinks(enrollments: seq<Enrollment>): (r: seq<NavItem>)
    ensures |r| == 4 * |enrollments|
    ensures forall k :: 0 <= k < |enrollments| ==> r[4 * k..4 * k + 4] == LinksFor(enrollments[k])
  {
    if enrollments == [] then []
    else
      var head := LinksFor(enrollments[0]);
      var rest := EnrollmentLinks(enrollments[1..]);
      assert forall k :: 1 <= k < |enrollments| ==>
        (head + rest)[4 * k..4 * k + 4] == rest[4 * (k - 1)..4 * (k - 1) + 4];
      head + rest
  }

  /** The role-dependent links of a signed-in user. */
  function RoleLinks(user: User, filtered: seq<Enrollment>): seq<NavItem> {
    if user.role == "admin" then
      [Link("Users", "/users-details"), Link("Courses-Management", "/courses"),
       Link("Enrollments", "/enroll"), BackButton]
    else if user.role == "instructor" then
      [Link("Courses-Management", "/courses"), BackButton]
    else if user.role == "student" then
      [Link("Courses", "/courses"), Link("Profile", "/student-dashboard")]
      + EnrollmentLinks(filtered) + [BackButton]
    else []
  }

  const GuestLinks: seq<NavItem> := [Link("Home", "/home"), Link("About", "/about"), Link("Courses", "/courses")]
  const GuestAccount: seq<NavItem> := [Link("Login", "/login"), Link("Register", "/register")]

  /** What the header shows for the context's user and the kept enrollments. */
  function Bar(users: Option<User>, filtered: seq<Enrollment>): NavBar {
    match users
    case None => NavBar(GuestLinks, GuestAccount)
    case Some(u) =>
      NavBar(RoleLinks(u, filtered),
             [UserBadge(u.firstName + " " + u.lastName + " (" + u.role + ")"), LogoutButton])
  }

  /** The first effect fetches the user's enrollments only when the user has a
      (truthy) `userId`; this is the id it fetches for. */
  function EnrollmentFetchFor(users: Option<User>): Option<string> {
    if users.Some? && Truthy(users.value.userId) then users.value.userId else None
  }

  /** `localStorage.getItem('token')`. */
  function StoredToken(storage: map<string, string>): Option<string> {
    if "token" in storage then Some(storage["token"]) else None
  }

  /** The browser state logout touches: local storage and the router location. */
  class Browser {
    var storage: map<string, string>
    var location: string

    constructor(storage: map<string, string>, location: string)
      ensures this.storage == storage && this.location == location
    {
      this.storage := storage;
      this.location := location;
    }
  }

  /** The header's own state. */
  class HeaderState {
    var isSmartBarVisible: bool
    var filteredEnrollments: seq<Enrollment>

    constructor()
      ensures isSmartBarVisible && filteredEnrollments == []
    {
      isSmartBarVisible := true;
      filteredEnrollments := [];
    }

    function View(users: Option<User>): NavBar
      reads this
    {
      Bar(users, filteredEnrollments)
    }

    method CloseSmartBar()
      modifies this
      ensures !isSmartBarVisible && filteredEnrollments == old(filteredEnrollments)
    {
      isSmartBarVisible := false;
    }

    /** The second effect, run when the enrollments or the user change.
        `enrollments` is `None` when the context does not hold an array. The
        kept list is replaced only when there is an array and a user with a
        truthy `userId`; otherwise the previous list stays. */
    method SyncFilteredEnrollments(enrollments: Option<seq<Enrollment>>, users: Option<User>)
      modifies this
      ensures isSmartBarVisible == old(isSmartBarVisible)
      ensures filteredEnrollments ==
        if enrollments.Some? && EnrollmentFetchFor(users).Some?
        then FilterEnrollments(enrollments.value, users.value.userId.value)
        else old(filteredEnrollments)
    {
      if enrollments.Some? && users.Some? && Truthy(users.value.userId) {
        filteredEnrollments := FilterEnrollments(enrollments.value, users.value.userId.value);
      }
    }

    /** Logout removes the stored token and navigates to `/login`. Nothing
        else in storage changes, and neither the header's state nor the
        authentication context's user is touched. */
    method HandleLogout(browser: Browser)
      modifies browser
      ensures browser.storage == old(browser.storage) - {"token"}
      ensures browser.location == "/login"
    {
      browser.storage := browser.storage - {"token"};
      browser.location := "/login";
    }
  }

  /** The signed-in admin's links, exactly. */
  lemma AdminLinks(u: User, filtered: seq<Enrollment>)
    requires u.role == "admin"
    ensures Bar(Some(u), filtered).links ==
      [Link("Users", "/users-details"), Link("Courses-Management", "/courses"),
       Link("Enrollments", "/enroll"), BackButton]
  {
  }

  /** The signed-in instructor's links, exactly. */
  lemma InstructorLinks(u: User, filtered: seq<Enrollment>)
    requires u.role == "instructor"
    ensures Bar(Some(u), filtered).links == [Link("Courses-Management", "/courses"), BackButton]
  {
  }

  /** A student sees Courses, Profile, the four links of each kept enrollment
      in the enrollments' order, then Back. */
  lemma {:induction false} StudentLinks(u: User, filtered: seq<Enrollment>)
    requires u.role == "student"
    ensures var links := Bar(Some(u), filtered).links;
      |links| == 4 * |filtered| + 3 &&
      links[0] == Link("Courses", "/courses") && links[1] == Link("Profile", "/student-dashboard") &&
      links[|links| - 1] == BackButton &&
      forall k :: 0 <= k < |filtered| ==> links[2 + 4 * k..6 + 4 * k] == LinksFor(filtered[k])
  {
    var links := Bar(Some(u), filtered).links;
    var front := [Link("Courses", "/courses"), Link("Profile", "/student-dashboard")];
    var middle := EnrollmentLinks(filtered);
    assert links == front + middle + [BackButton];
    forall k | 0 <= k < |filtered|
      ensures links[2 + 4 * k..6 + 4 * k] == LinksFor(filtered[k])
    {
      assert links[2 + 4 * k..6 + 4 * k] == middle[4 * k..4 * k + 4];
    }
  }

  /** A user whose role is none of the three gets no navigation links, but the
      account area still shows the name and the logout button. */
  lemma UnknownRoleLinks(u: User, filtered: seq<Enrollment>)
    requires u.role != "admin" && u.role != "instructor" && u.role != "student"
    ensures Bar(Some(u), filtered).links == []
    ensures Bar(Some(u), filtered).account ==
      [UserBadge(u.firstName + " " + u.lastName + " (" + u.role + ")"), LogoutButton]
  {
  }

  /** A guest sees Home, About and Courses, and the Login and Register buttons. */
  lemma GuestBar(filtered: seq<Enrollment>)
    ensures Bar(None, filtered) ==
      NavBar([Link("Home", "/home"), Link("About", "/about"), Link("Courses", "/courses")],
             [Link("Login", "/login"), Link("Register", "/register")])
  {
  }

  /** Every enrollment the header keeps for a student, and so every set of
      four course links it shows, comes from the context's enrollments and
      belongs to that student. */
  lemma {:induction false} StudentLinksAreOwnCourses(u: User, enrollments: seq<Enrollment>, k: int)
    requires u.role == "student" && u.userId.Some?
    requires 0 <= k < |FilterEnrollments(enrollments, u.userId.value)|
    ensures var kept := FilterEnrollments(enrollments, u.userId.value);
      kept[k] in enrollments && kept[k].userId == u.userId
  {
    var kept := FilterEnrollments(enrollments, u.userId.value);
    assert kept[k] in multiset(kept);
  }

  /** Once the gate is evaluated again on the storage logout leaves, it sends
      every protected path to `/login`, whatever else is stored. The shell
      reads the token only when it renders, and logout alone does not make it
      render again. */
  lemma {:induction false} LogoutLocksProtectedRoutes(storage: map<string, string>, path: string)
    requires Routes.MatchesAny(Routes.ProtectedRoutes, path)
    ensures Routes.Decide(path, StoredToken(storage - {"token"})) == Routes.Redirect("/login")
  {
    Routes.ProtectedRenderedIffAuthenticated(path, StoredToken(storage - {"token"}));
  }
}
