/** The course list screen: a case-insensitive search over title and category,
    four sort options applied to a copy of the shown list, and the reset of
    the shown list whenever the context's courses change.

    `Array.prototype.sort` is modelled by what the language standard promises
    of it: a permutation, ordered by the comparator, and stable. The model
    computes that order by insertion. */
module CourseList {
  import opened Outcomes
  import opened Collections
  import Text
  import opened CourseContext

  /** `field?.toLowerCase().includes(term.toLowerCase())`: a missing field
      never matches. */
  predicate FieldMatches(field: Option<string>, term: string) {
    field.Some? && Text.Contains(Text.Lower(field.value), Text.Lower(term))
  }

  predicate MatchesSearch(c: Course, term: string) {
    FieldMatches(c.data.title, term) || FieldMatches(c.data.category, term)
  }

  /** `filteredCourses`: the shown courses that match the search term, in the
      shown order. */
  function FilterCourses(courses: seq<Course>, term: string): (r: seq<Course>)
    ensures IsSubsequence(r, courses)
    ensures forall c :: multiset(r)[c] == if MatchesSearch(c, term) then multiset(courses)[c] else 0
  {
    Filter(courses, (c: Course) => MatchesSearch(c, term))
  }

  /** A present field matches exactly when its lower-cased text has the
      lower-cased term at some position. */
  lemma FieldMatchesIffOccurs(field: string, term: string)
    ensures FieldMatches(Some(field), term) <==>
      exists i :: Text.OccursAt(Text.Lower(field), Text.Lower(term), i)
  {
    Text.ContainsIffOccurs(Text.Lower(field), Text.Lower(term));
    assert FieldMatches(Some(field), term) <==> Text.Contains(Text.Lower(field), Text.Lower(term));
  }

  /** The empty search keeps exactly the courses that have a title or a
      category. */
  lemma EmptySearchKeepsNamedCourses(c: Course)
    ensures MatchesSearch(c, "") <==> c.data.title.Some? || c.data.category.Some?
  {
    if c.data.title.Some? {
      Text.ContainsEmpty(Text.Lower(c.data.title.value));
    }
    if c.data.category.Some? {
      Text.ContainsEmpty(Text.Lower(c.data.category.value));
    }
  }

  /** The letter case of the search term does not matter. */
  lemma SearchIgnoresTermCase(c: Course, term: string)
    ensures MatchesSearch(c, term) <==> MatchesSearch(c, Text.Lower(term))
  {
    Text.LowerIdempotent(term);
  }

  /** The letter case of a title or category does not matter either. */
  lemma SearchIgnoresFieldCase(field: string, term: string)
    ensures FieldMatches(Some(field), term) <==> FieldMatches(Some(Text.Lower(field)), term)
  {
    Text.LowerIdempotent(field);
  }

  // ---------------------------------------------------------------------
  // Sorting

  datatype SortOrder = TitleAscending | TitleDescending | PriceAscending | PriceDescending

  /** The dropdown's event keys; any other key leaves the order alone. */
  function OrderFor(option: string): Option<SortOrder> {
    if option == "A to Z" then Some(TitleAscending)
    else if option == "Z to A" then Some(TitleDescending)
    else if option == "Low Price to High Price" then Some(PriceAscending)
    else if option == "High Price to Low Price" then Some(PriceDescending)
    else None
  }

  function TitleKey(c: Course): string {
    c.data.title.GetOr("")
  }

  /** The comparator returns a negative number: `a` sorts before `b`.
      'Z to A' swaps the arguments of the title comparison, and 'High Price
      to Low Price' those of the price difference. */
  predicate Precedes(order: SortOrder, a: Course, b: Course) {
    match order
    case TitleAscending => Text.LexLess(TitleKey(a), TitleKey(b))
    case TitleDescending => Text.LexLess(TitleKey(b), TitleKey(a))
    case PriceAscending => a.data.price < b.data.price
    case PriceDescending => b.data.price < a.data.price
  }

  /** The comparator returns zero: neither sorts before the other. */
  predicate Tied(order: SortOrder, a: Course, b: Course) {
    !Precedes(order, a, b) && !Precedes(order, b, a)
  }

  lemma PrecedesIrreflexive(order: SortOrder, a: Course)
    ensures !Precedes(order, a, a)
  {
    Text.LexLessIrreflexive(TitleKey(a));
  }

  lemma PrecedesTransitive(order: SortOrder, a: Course, b: Course, c: Course)
    requires Precedes(order, a, b) && Precedes(order, b, c)
    ensures Precedes(order, a, c)
  {
    match order
    case TitleAscending => Text.LexLessTransitive(TitleKey(a), TitleKey(b), TitleKey(c));
    case TitleDescending => Text.LexLessTransitive(TitleKey(c), TitleKey(b), TitleKey(a));
    case _ =>
  }

  lemma NotPrecedesTransitive(order: SortOrder, a: Course, b: Course, c: Course)
    requires !Precedes(order, a, b) && !Precedes(order, b, c)
    ensures !Precedes(order, a, c)
  {
    match order
    case TitleAscending => Text.LexNotLessTransitive(TitleKey(a), TitleKey(b), TitleKey(c));
    case TitleDescending => Text.LexNotLessTransitive(TitleKey(c), TitleKey(b), TitleKey(a));
    case _ =>
  }

  /** Being tied with the same course makes two courses tied with each other. */
  lemma TiedTransitive(order: SortOrder, a: Course, b: Course, y: Course)
    requires Tied(order, a, y) && Tied(order, b, y)
    ensures Tied(order, a, b)
  {
    NotPrecedesTransitive(order, a, y, b);
    NotPrecedesTransitive(order, b, y, a);
  }

  /** No later course sorts before an earlier one. */
  predicate SortedBy(order: SortOrder, s: seq<Course>) {
    forall i, j :: 0 <= i < j < |s| ==> !Precedes(order, s[j], s[i])
  }

  /** The courses tied with `y`, in their order in `s`. */
  function TiesWith(order: SortOrder, s: seq<Course>, y: Course): seq<Course> {
    if s == [] then []
    else (if Tied(order, s[0], y) then [s[0]] else []) + TiesWith(order, s[1..], y)
  }

  /** Inserts `x` in front of the first course that does not sort before it. */
  function Insert(order: SortOrder, x: Course, s: seq<Course>): (r: seq<Course>)
    ensures multiset(r) == multiset(s) + multiset{x}
    ensures |r| == |s| + 1
  {
    if s == [] then [x]
    else if Precedes(order, s[0], x) then
      assert s == [s[0]] + s[1..];
      [s[0]] + Insert(order, x, s[1..])
    else [x] + s
  }

  /** The stable sort of `s` by `order`. */
  function SortBy(order: SortOrder, s: seq<Course>): (r: seq<Course>)
    ensures multiset(r) == multiset(s)
    ensures |r| == |s|
  {
    if s == [] then []
    else
      assert s == [s[0]] + s[1..];
      Insert(order, s[0], SortBy(order, s[1..]))
  }

  lemma {:induction false} InsertSorted(order: SortOrder, x: Course, s: seq<Course>)
    requires SortedBy(order, s)
    ensures SortedBy(order, Insert(order, x, s))
  {
    if s != [] {
      var r := Insert(order, x, s);
      if Precedes(order, s[0], x) {
        var tail := s[1..];
        assert SortedBy(order, tail) by {
          forall i, j | 0 <= i < j < |tail| ensures !Precedes(order, tail[j], tail[i]) {
            assert tail[i] == s[i + 1] && tail[j] == s[j + 1];
          }
        }
        InsertSorted(order, x, tail);
        var rest := Insert(order, x, tail);
        assert r == [s[0]] + rest;
        forall j | 0 < j < |r| ensures !Precedes(order, r[j], s[0]) {
          assert r[j] in multiset(rest);
          if r[j] == x {
            if Precedes(order, x, s[0]) {
              PrecedesTransitive(order, x, s[0], x);
              PrecedesIrreflexive(order, x);
            }
          } else {
            assert r[j] in multiset(tail);
            var k :| 0 <= k < |tail| && tail[k] == r[j];
            assert s[k + 1] == r[j];
          }
        }
      } else {
        assert r == [x] + s;
        forall j | 0 < j < |r| ensures !Precedes(order, r[j], x) {
          assert r[j] == s[j - 1];
          if j > 1 {
            NotPrecedesTransitive(order, s[j - 1], s[0], x);
          }
        }
      }
    }
  }

  lemma {:induction false} SortBySorted(order: SortOrder, s: seq<Course>)
    ensures SortedBy(order, SortBy(order, s))
  {
    if s != [] {
      SortBySorted(order, s[1..]);
      InsertSorted(order, s[0], SortBy(order, s[1..]));
    }
  }

  /** A course that sorts before `c` sorts before `b`, or `b` sorts before
      `c`. */
  lemma PrecedesSplit(order: SortOrder, a: Course, b: Course, c: Course)
    requires Precedes(order, a, c)
    ensures Precedes(order, a, b) || Precedes(order, b, c)
  {
    if !Precedes(order, a, b) && !Precedes(order, b, c) {
      NotPrecedesTransitive(order, a, b, c);
    }
  }

  lemma TiesWithCons(order: SortOrder, x: Course, s: seq<Course>, y: Course)
    ensures TiesWith(order, [x] + s, y) == (if Tied(order, x, y) then [x] else []) + TiesWith(order, s, y)
  {
    assert ([x] + s)[0] == x && ([x] + s)[1..] == s;
  }

  lemma SortedTail(order: SortOrder, s: seq<Course>)
    requires SortedBy(order, s) && s != []
    ensures SortedBy(order, s[1..])
  {
    var tail := s[1..];
    forall i, j | 0 <= i < j < |tail| ensures !Precedes(order, tail[j], tail[i]) {
      assert tail[i] == s[i + 1] && tail[j] == s[j + 1];
    }
  }

  /** One step of `InsertTies`: `x` goes past `s[0]`, which sorts before it,
      so at most one of the two is tied with `y`. */
  lemma InsertTiesPast(order: SortOrder, x: Course, s: seq<Course>, y: Course)
    requires s != [] && Precedes(order, s[0], x)
    requires TiesWith(order, Insert(order, x, s[1..]), y) ==
      (if Tied(order, x, y) then [x] else []) + TiesWith(order, s[1..], y)
    ensures TiesWith(order, Insert(order, x, s), y) ==
      (if Tied(order, x, y) then [x] else []) + TiesWith(order, s, y)
  {
    var tail := s[1..];
    var rest := Insert(order, x, tail);
    var tx := if Tied(order, x, y) then [x] else [];
    var t0 := if Tied(order, s[0], y) then [s[0]] else [];
    var ties := TiesWith(order, tail, y);
    assert TiesWith(order, Insert(order, x, s), y) == t0 + (tx + ties) by {
      assert Insert(order, x, s) == [s[0]] + rest;
      TiesWithCons(order, s[0], rest, y);
    }
    assert TiesWith(order, s, y) == t0 + ties by {
      assert s == [s[0]] + tail;
      TiesWithCons(order, s[0], tail, y);
    }
    assert t0 == [] || tx == [] by {
      if Tied(order, s[0], y) {
        PrecedesSplit(order, s[0], y, x);
      }
    }
    SwapEmpty(t0, tx, ties);
  }

  lemma SwapEmpty<T>(a: seq<T>, b: seq<T>, c: seq<T>)
    requires a == [] || b == []
    ensures a + (b + c) == b + (a + c)
  {
    if a == [] {
      assert a + (b + c) == b + c == b + (a + c);
    } else {
      assert a + (b + c) == a + c == b + (a + c);
    }
  }

  /** Inserting into a sorted list puts `x` in front of the courses it is
      tied with. */
  lemma {:induction false} InsertTies(order: SortOrder, x: Course, s: seq<Course>, y: Course)
    requires SortedBy(order, s)
    ensures TiesWith(order, Insert(order, x, s), y) ==
      (if Tied(order, x, y) then [x] else []) + TiesWith(order, s, y)
  {
    if s == [] {
      TiesWithCons(order, x, [], y);
      assert [x] + [] == [x];
    } else if Precedes(order, s[0], x) {
      SortedTail(order, s);
      InsertTies(order, x, s[1..], y);
      InsertTiesPast(order, x, s, y);
    } else {
      assert Insert(order, x, s) == [x] + s;
      TiesWithCons(order, x, s, y);
    }
  }

  /** Stability: the courses tied with any `y` keep their relative order. */
  lemma {:induction false} SortByStable(order: SortOrder, s: seq<Course>, y: Course)
    ensures TiesWith(order, SortBy(order, s), y) == TiesWith(order, s, y)
  {
    if s != [] {
      SortByStable(order, s[1..], y);
      SortBySorted(order, s[1..]);
      InsertTies(order, s[0], SortBy(order, s[1..]), y);
    }
  }

  /** `handleSort` on a copy of the shown list. */
  function SortCourses(option: string, courses: seq<Course>): (r: seq<Course>)
    ensures multiset(r) == multiset(courses)
    ensures OrderFor(option).None? ==> r == courses
  {
    match OrderFor(option)
    case None => courses
    case Some(order) => SortBy(order, courses)
  }

  /** A sorted copy is a permutation of the shown list, ordered by the chosen
      comparator, keeping tied courses in their prior order; an unknown
      option changes nothing. */
  lemma SortCoursesCorrect(option: string, courses: seq<Course>, y: Course)
    ensures multiset(SortCourses(option, courses)) == multiset(courses)
    ensures OrderFor(option).None? ==> SortCourses(option, courses) == courses
    ensures OrderFor(option).Some? ==>
      SortedBy(OrderFor(option).value, SortCourses(option, courses)) &&
      TiesWith(OrderFor(option).value, SortCourses(option, courses), y) ==
      TiesWith(OrderFor(option).value, courses, y)
  {
    if OrderFor(option).Some? {
      SortBySorted(OrderFor(option).value, courses);
      SortByStable(OrderFor(option).value, courses, y);
    }
  }

  /** 'Z to A' is not the reverse of 'A to Z': two courses with the same title
      keep their order under both. */
  lemma DescendingKeepsTiesInOrder(a: Course, b: Course)
    requires a.data.title == b.data.title && a != b
    ensures SortCourses("Z to A", [a, b]) == [a, b]
    ensures SortCourses("A to Z", [a, b]) == [a, b]
  {
    Text.LexLessIrreflexive(TitleKey(a));
    assert [a, b][1..] == [b];
  }

  /** The list screen's own state. */
  class CourseListView {
    var searchTerm: string
    var sortOption: string
    var sortedCourses: seq<Course>

    constructor()
      ensures searchTerm == "" && sortOption == "" && sortedCourses == []
    {
      searchTerm := "";
      sortOption := "";
      sortedCourses := [];
    }

    /** The courses shown. */
    function FilteredCourses(): seq<Course>
      reads this
    {
      FilterCourses(sortedCourses, searchTerm)
    }

    /** The effect on a change of the context's courses: the shown list
        becomes those courses, discarding any sort. */
    method CoursesChanged(courses: seq<Course>)
      modifies this`sortedCourses
      ensures sortedCourses == courses
    {
      sortedCourses := courses;
    }

    method HandleSearch(value: string)
      modifies this`searchTerm
      ensures searchTerm == value
    {
      searchTerm := value;
    }

    /** Records the option and shows a sorted copy of the shown list. */
    method HandleSort(option: string)
      modifies this`sortOption, this`sortedCourses
      ensures sortOption == option
      ensures sortedCourses == SortCourses(option, old(sortedCourses))
    {
      sortOption := option;
      sortedCourses := SortCourses(option, sortedCourses);
    }
  }
}
