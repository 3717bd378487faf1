/** The route gate of the application shell: eight public route patterns that
    always render, twenty-six protected ones that exist only while a token is
    stored, and a catch-all redirect to `/login` that exists only while none is.
    Matching approximates react-router: a path and a pattern are split into
    non-empty segments, a `:name` segment matches any one segment, and literal
    segments compare without regard to (ASCII) letter case. */
module Routes {
  import opened Outcomes
  import Text

  /** `!!localStorage.getItem('token')`: a missing token and the empty string
      both leave the visitor unauthenticated. */
  predicate IsAuthenticated(token: Option<string>) {
    Truthy(token)
  }

  /** Length of the segment at the start of `s`: the characters before the
      first `/`. */
  function SegmentLength(s: string): (n: nat)
    ensures n <= |s|
    ensures forall k :: 0 <= k < n ==> s[k] != '/'
    ensures n < |s| ==> s[n] == '/'
  {
    if s == [] || s[0] == '/' then 0 else 1 + SegmentLength(s[1..])
  }

  /** The non-empty `/`-separated segments of a path, in order; repeated and
      trailing slashes produce no segment. */
  function Segments(path: string): (r: seq<string>)
    ensures forall i :: 0 <= i < |r| ==> r[i] != "" && '/' !in r[i]
    decreases |path|
  {
    if path == [] then []
    else if path[0] == '/' then Segments(path[1..])
    else
      var n := SegmentLength(path);
      assert '/' !in path[..n] by {
        forall k | 0 <= k < n ensures path[..n][k] != '/' { }
      }
      [path[..n]] + Segments(path[n..])
  }

  /** The path `/s0/s1/...` built from its segments. */
  function Join(segs: seq<string>): string {
    if segs == [] then "" else "/" + segs[0] + Join(segs[1..])
  }

  lemma JoinStartsWithSlash(segs: seq<string>)
    ensures Join(segs) == [] || Join(segs)[0] == '/'
  {
  }

  /** A segment followed by nothing or by a `/` is read up to that `/`. */
  lemma {:induction false} SegmentLengthOf(a: string, b: string)
    requires '/' !in a && (b == [] || b[0] == '/')
    ensures SegmentLength(a + b) == |a|
  {
    if a != [] {
      assert (a + b)[1..] == a[1..] + b;
      SegmentLengthOf(a[1..], b);
    }
  }

  /** Splitting undoes joining: the path built from non-empty, slash-free
      segments splits back into exactly those segments. */
  lemma {:induction false} SegmentsOfJoin(segs: seq<string>)
    requires forall i :: 0 <= i < |segs| ==> segs[i] != "" && '/' !in segs[i]
    ensures Segments(Join(segs)) == segs
  {
    if segs != [] {
      var rest := Join(segs[1..]);
      var q := segs[0] + rest;
      assert Join(segs) == "/" + q;
      assert ("/" + q)[1..] == q;
      JoinStartsWithSlash(segs[1..]);
      SegmentLengthOf(segs[0], rest);
      assert q[0] == segs[0][0];
      assert q[..|segs[0]|] == segs[0] && q[|segs[0]|..] == rest;
      SegmentsOfJoin(segs[1..]);
    }
  }

  /** One segment of a route pattern: literal text, or a `:name` parameter. */
  datatype PatternSegment = Lit(text: string) | Param(name: string)

  type Pattern = seq<PatternSegment>

  predicate SegmentMatches(p: PatternSegment, segment: string) {
    match p
    case Param(_) => true
    case Lit(text) => Text.Lower(text) == Text.Lower(segment)
  }

  predicate SegmentsMatch(pattern: Pattern, segments: seq<string>) {
    |pattern| == |segments| &&
    forall i :: 0 <= i < |pattern| ==> SegmentMatches(pattern[i], segments[i])
  }

  predicate Matches(pattern: Pattern, path: string) {
    SegmentsMatch(pattern, Segments(path))
  }

  /** Route patterns rendered whether or not a token is stored. */
  const PublicRoutes: seq<Pattern> := [
    [],                                       // "/"
    [Lit("Home")], [Lit("About")], [Lit("register")], [Lit("login")],
    [Lit("forgot-password")], [Lit("reset-password"), Param("token")], [Lit("courses")]
  ]

  /** Route patterns rendered only while authenticated. The pattern written
      `//quiz-submission-list/:quizId` has an empty first segment, which
      matching ignores. */
  const ProtectedRoutes: seq<Pattern> := [
    [Lit("users-details")], [Lit("admin-dashboard")], [Lit("instructor-dashboard")],
    [Lit("student-dashboard")], [Lit("courses"), Param("courseId")], [Lit("create-course")],
    [Lit("course-edit"), Param("courseId")], [Lit("enroll"), Param("courseId")], [Lit("enroll")],
    [Lit("enroll-details")], [Lit("enroll-edit"), Param("enrollmentId")],
    [Lit("assignments"), Param("courseId")], [Lit("create-assignment"), Param("courseId")],
    [Lit("submit"), Param("assignmentId")], [Lit("submissionList"), Param("assignmentId")],
    [Lit("quizzes"), Param("courseId")], [Lit("create-quiz"), Param("courseId")],
    [Lit("quiz-edit"), Param("quizId")], [Lit("quiz-submission"), Param("quizId")],
    [Lit("quiz-submission-list"), Param("quizId")], [Lit("payment"), Param("enrollmentId")],
    [Lit("lessons"), Param("courseId")], [Lit("create-lesson"), Param("courseId")],
    [Lit("edit-lesson"), Param("lessonId")], [Lit("lesson-detailed"), Param("lessonId")],
    [Lit("progress-report"), Param("courseId")]
  ]

  predicate MatchesAny(patterns: seq<Pattern>, path: string) {
    exists i :: 0 <= i < |patterns| && Matches(patterns[i], path)
  }

  datatype Decision = Render | Redirect(target: string) | NoRoute

  /** What the router does with `path` under the stored `token`. */
  function Decide(path: string, token: Option<string>): Decision {
    if MatchesAny(PublicRoutes, path) then Render
    else if IsAuthenticated(token) then
      if MatchesAny(ProtectedRoutes, path) then Render else NoRoute
    else Redirect("/login")
  }

  /** A cheap sufficient test that no path matches both patterns: their
      segment counts differ, or their first segments are literals of
      different lengths or with different first letters. */
  predicate Distinct(p: Pattern, q: Pattern) {
    |p| != |q| ||
    (|p| > 0 && p[0].Lit? && q[0].Lit? && p[0].text != "" && q[0].text != "" &&
     (|p[0].text| != |q[0].text| || Text.LowerChar(p[0].text[0]) != Text.LowerChar(q[0].text[0])))
  }

  lemma DistinctSound(p: Pattern, q: Pattern, path: string)
    requires Distinct(p, q)
    ensures !(Matches(p, path) && Matches(q, path))
  {
  }

  lemma TablesDistinct()
    ensures forall i, j :: 0 <= i < |PublicRoutes| && 0 <= j < |ProtectedRoutes| ==>
      Distinct(PublicRoutes[i], ProtectedRoutes[j])
  {
  }

  /** No path matches both a public and a protected pattern. */
  lemma {:induction false} PublicProtectedDisjoint(path: string)
    ensures !(MatchesAny(PublicRoutes, path) && MatchesAny(ProtectedRoutes, path))
  {
    if MatchesAny(PublicRoutes, path) && MatchesAny(ProtectedRoutes, path) {
      var i :| 0 <= i < |PublicRoutes| && Matches(PublicRoutes[i], path);
      var j :| 0 <= j < |ProtectedRoutes| && Matches(ProtectedRoutes[j], path);
      TablesDistinct();
      DistinctSound(PublicRoutes[i], ProtectedRoutes[j], path);
    }
  }

  /** Public patterns render whatever is stored. */
  lemma PublicAlwaysRendered(path: string, token: Option<string>)
    requires MatchesAny(PublicRoutes, path)
    ensures Decide(path, token) == Render
  {
  }

  /** A protected pattern renders if and only if the visitor is authenticated;
      otherwise the visitor is sent to the login page. */
  lemma ProtectedRenderedIffAuthenticated(path: string, token: Option<string>)
    requires MatchesAny(ProtectedRoutes, path)
    ensures Decide(path, token) == Render <==> IsAuthenticated(token)
    ensures !IsAuthenticated(token) ==> Decide(path, token) == Redirect("/login")
  {
    PublicProtectedDisjoint(path);
  }

  /** Without a token every non-public path redirects to `/login`. */
  lemma UnauthenticatedRedirects(path: string, token: Option<string>)
    requires !IsAuthenticated(token) && !MatchesAny(PublicRoutes, path)
    ensures Decide(path, token) == Redirect("/login")
  {
  }

  /** With a token there is no catch-all: a path matching no pattern renders
      nothing and redirects nowhere. */
  lemma AuthenticatedUnknownPathHasNoRoute(path: string, token: Option<string>)
    requires IsAuthenticated(token)
    requires !MatchesAny(PublicRoutes, path) && !MatchesAny(ProtectedRoutes, path)
    ensures Decide(path, token) == NoRoute
  {
  }

  /** The gate never redirects an authenticated visitor, and never answers
      "no route" to an unauthenticated one. */
  lemma DecisionShape(path: string, token: Option<string>)
    ensures Decide(path, token).Redirect? <==> !IsAuthenticated(token) && !MatchesAny(PublicRoutes, path)
    ensures Decide(path, token) == NoRoute ==> IsAuthenticated(token)
  {
  }
}
