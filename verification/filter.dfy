/**
  The course filter of the landing page: the visible courses are those whose title or
  description contains the search text, ignoring case, and whose level agrees with the level
  selector; they keep their catalog order.
 */
module CourseFilter {
  import opened Wrappers
  import opened Text
  import opened Catalog

  /** The level selector: every level, or exactly one. */
  datatype Selector = All | Only(level: Level)

  /** The value the selector holds in the page state (`activeFilter`). */
  function SelectorName(sel: Selector): string {
    match sel
    case All => "all"
    case Only(l) => LevelName(l)
  }

  /** The values the level buttons set, in the order the page shows the buttons. */
  const SELECTOR_NAMES: seq<string> := ["all", "beginner", "intermediate", "advanced"]

  /** Reads a selector value: exactly the four values the level buttons set are accepted. */
  function ParseSelector(s: string): (r: Option<Selector>)
    ensures r.Some? <==> s in SELECTOR_NAMES
    ensures r.Some? ==> SelectorName(r.value) == s
  {
    if s == "all" then Some(All)
    else match ParseLevel(s)
      case Some(l) => Some(Only(l))
      case None => None
  }

  /** Every selector holds one of the four values and is read back from it. */
  lemma SelectorRoundTrip(sel: Selector)
    ensures SelectorName(sel) in SELECTOR_NAMES
    ensures ParseSelector(SelectorName(sel)) == Some(sel)
  {
    if sel.Only? {
      LevelNameRoundTrip(sel.level);
    }
  }

  /** The search text occurs, ignoring case, in the title or in the description. */
  predicate MatchesSearch(c: Course, query: string) {
    IncludesIgnoringCase(c.title, query) || IncludesIgnoringCase(c.description, query)
  }

  /** The course's level passes the selector. */
  predicate MatchesLevel(c: Course, sel: Selector) {
    sel == All || c.level == sel.level
  }

  /** The course is shown. */
  predicate Visible(c: Course, query: string, sel: Selector) {
    MatchesSearch(c, query) && MatchesLevel(c, sel)
  }

  /** What the filter keeps of one course: the course itself if shown, nothing otherwise. */
  function Kept(c: Course, query: string, sel: Selector): seq<Course> {
    if Visible(c, query, sel) then [c] else []
  }

  /** `courses.filter(...)`: the shown courses, in their original order. */
  function Filter(courses: seq<Course>, query: string, sel: Selector): (r: seq<Course>)
    ensures |r| <= |courses|
  {
    if courses == [] then []
    else
      var rest := Filter(courses[1..], query, sel);
      if Visible(courses[0], query, sel) then [courses[0]] + rest else rest
  }

  /** The empty search text is found in every course. */
  lemma EmptySearchMatches(c: Course)
    ensures MatchesSearch(c, "")
  {
    IncludesEmpty(ToLower(c.title));
  }

  /** Filtering a concatenation filters each part. */
  lemma {:induction false} FilterAppend(a: seq<Course>, b: seq<Course>, query: string, sel: Selector)
    ensures Filter(a + b, query, sel) == Filter(a, query, sel) + Filter(b, query, sel)
  {
    if a == [] {
      assert a + b == b;
    } else {
      assert (a + b)[1..] == a[1..] + b;
      FilterAppend(a[1..], b, query, sel);
    }
  }

  /** Filtering splits at any position: what comes before, the course there if shown, what comes after. */
  lemma FilterSplit(courses: seq<Course>, query: string, sel: Selector, k: int)
    requires 0 <= k < |courses|
    ensures Filter(courses, query, sel)
         == Filter(courses[..k], query, sel)
          + Kept(courses[k], query, sel)
          + Filter(courses[k + 1..], query, sel)
  {
    assert courses == courses[..k] + ([courses[k]] + courses[k + 1..]);
    FilterAppend(courses[..k], [courses[k]] + courses[k + 1..], query, sel);
    FilterAppend([courses[k]], courses[k + 1..], query, sel);
  }

  /** Filtering a catalog grown by one course at the end. */
  lemma FilterSnoc(courses: seq<Course>, c: Course, query: string, sel: Selector)
    ensures Filter(courses + [c], query, sel) == Filter(courses, query, sel) + Kept(c, query, sel)
  {
    FilterAppend(courses, [c], query, sel);
    assert [c][1..] == [];
  }

  /** The filter as the page runs it: one pass over the catalog, pushing each shown course. */
  method FilterCourses(courses: seq<Course>, query: string, sel: Selector) returns (r: seq<Course>)
    ensures r == Filter(courses, query, sel)
  {
    r := [];
    var i := 0;
    while i < |courses|
      invariant 0 <= i <= |courses|
      invariant r == Filter(courses[..i], query, sel)
    {
      FilterSnoc(courses[..i], courses[i], query, sel);
      assert courses[..i + 1] == courses[..i] + [courses[i]];
      if Visible(courses[i], query, sel) {
        r := r + [courses[i]];
      }
      i := i + 1;
    }
    assert courses[..i] == courses;
  }

  // ----------------------------------------------------------------------------------------
  // Order: the result is a subsequence of the catalog

  /** `idx` picks the elements of `xs` out of `ys` at strictly increasing positions. */
  ghost predicate Embedding<T>(idx: seq<int>, xs: seq<T>, ys: seq<T>) {
    && |idx| == |xs|
    && (forall i :: 0 <= i < |idx| ==> 0 <= idx[i] < |ys| && ys[idx[i]] == xs[i])
    && (forall i, j :: 0 <= i < j < |idx| ==> idx[i] < idx[j])
  }

  /** `xs` is `ys` with some elements left out, the rest in their original order. */
  ghost predicate IsSubsequence<T>(xs: seq<T>, ys: seq<T>) {
    exists idx :: Embedding(idx, xs, ys)
  }

  /** Shifts every position by one, for a list that gained an element in front. */
  function Shift(idx: seq<int>): (r: seq<int>)
    ensures |r| == |idx|
    ensures forall i :: 0 <= i < |idx| ==> r[i] == idx[i] + 1
  {
    if idx == [] then [] else [idx[0] + 1] + Shift(idx[1..])
  }

  lemma EmbeddingCons<T>(idx: seq<int>, xs: seq<T>, y: T, ys: seq<T>)
    requires Embedding(idx, xs, ys)
    ensures Embedding(Shift(idx), xs, [y] + ys)
    ensures Embedding([0] + Shift(idx), [y] + xs, [y] + ys)
  {
    var s, t, zs := Shift(idx), [0] + Shift(idx), [y] + ys;
    forall i | 0 <= i < |s|
      ensures 0 <= s[i] < |zs| && zs[s[i]] == xs[i]
    {
      assert zs[idx[i] + 1] == ys[idx[i]];
    }
    forall i | 0 < i < |t|
      ensures t[i] == s[i - 1]
    {
    }
  }

  /** The shown courses appear in the catalog in the same relative order. */
  lemma {:induction false} FilterIsSubsequence(courses: seq<Course>, query: string, sel: Selector)
    ensures IsSubsequence(Filter(courses, query, sel), courses)
  {
    if courses == [] {
      assert Embedding([], Filter(courses, query, sel), courses);
    } else {
      var rest := courses[1..];
      FilterIsSubsequence(rest, query, sel);
      var idx :| Embedding(idx, Filter(rest, query, sel), rest);
      EmbeddingCons(idx, Filter(rest, query, sel), courses[0], rest);
      assert [courses[0]] + rest == courses;
    }
  }

  /** Each shown course appears as often as in the catalog; a hidden one not at all. */
  lemma {:induction false} FilterMultiplicity(courses: seq<Course>, query: string, sel: Selector, c: Course)
    ensures multiset(Filter(courses, query, sel))[c]
         == if Visible(c, query, sel) then multiset(courses)[c] else 0
  {
    if courses != [] {
      FilterMultiplicity(courses[1..], query, sel, c);
      assert courses == [courses[0]] + courses[1..];
    }
  }

  /** A course is in the result exactly when it is in the catalog and shown. */
  lemma FilterMembers(courses: seq<Course>, query: string, sel: Selector)
    ensures forall c :: c in Filter(courses, query, sel) <==> c in courses && Visible(c, query, sel)
  {
    forall c {
      FilterMultiplicity(courses, query, sel, c);
    }
  }

  // ----------------------------------------------------------------------------------------
  // Special inputs

  /** The empty search text with every level shown gives back the whole catalog. */
  lemma {:induction false} FilterIdentity(courses: seq<Course>)
    ensures Filter(courses, "", All) == courses
  {
    if courses != [] {
      FilterIdentity(courses[1..]);
      IncludesEmpty(ToLower(courses[0].title));
    }
  }

  /** Only the lower-case form of the search text matters. */
  lemma {:induction false} FilterIgnoresCase(courses: seq<Course>, q1: string, q2: string, sel: Selector)
    requires ToLower(q1) == ToLower(q2)
    ensures Filter(courses, q1, sel) == Filter(courses, q2, sel)
  {
    if courses != [] {
      FilterIgnoresCase(courses[1..], q1, q2, sel);
    }
  }

  /** Search texts that differ only in the case of ASCII letters give the same result. */
  lemma FilterIgnoresLetterCase(courses: seq<Course>, q1: string, q2: string, sel: Selector)
    requires SameUpToCase(q1, q2)
    ensures Filter(courses, q1, sel) == Filter(courses, q2, sel)
  {
    ToLowerEqualIff(q1, q2);
    FilterIgnoresCase(courses, q1, q2, sel);
  }

  /**
    With one level selected, every shown course has that level, and the result is what the
    same search with every level shown gives, narrowed to that level.
   */
  lemma {:induction false} FilterOnlyNarrowsAll(courses: seq<Course>, query: string, l: Level)
    ensures forall c :: c in Filter(courses, query, Only(l)) ==> c.level == l
    ensures Filter(courses, query, Only(l)) == Filter(Filter(courses, query, All), "", Only(l))
    ensures IsSubsequence(Filter(courses, query, Only(l)), Filter(courses, query, All))
  {
    FilterMembers(courses, query, Only(l));
    if courses != [] {
      FilterOnlyNarrowsAll(courses[1..], query, l);
      IncludesEmpty(ToLower(courses[0].title));
    }
    FilterIsSubsequence(Filter(courses, query, All), "", Only(l));
  }

  /** Filtering what is already filtered, with the same inputs, changes nothing. */
  lemma {:induction false} FilterIdempotent(courses: seq<Course>, query: string, sel: Selector)
    ensures Filter(Filter(courses, query, sel), query, sel) == Filter(courses, query, sel)
  {
    if courses != [] {
      FilterIdempotent(courses[1..], query, sel);
    }
  }

  // ----------------------------------------------------------------------------------------
  // The page state

  /** The two pieces of state the page keeps: the search text and the level selector. */
  datatype FilterState = FilterState(query: string, selector: Selector)

  /** The state the page starts in. */
  const INITIAL_STATE: FilterState := FilterState("", All)

  /** The courses the page shows in a state. */
  function Shown(courses: seq<Course>, st: FilterState): seq<Course> {
    Filter(courses, st.query, st.selector)
  }

  /** The page shows the "No courses found" message. */
  predicate ShowsNoCourses(courses: seq<Course>, st: FilterState) {
    |Shown(courses, st)| == 0
  }

  /** The page starts by showing the whole catalog. */
  lemma InitialShowsAll(courses: seq<Course>)
    ensures INITIAL_STATE.query == [] && INITIAL_STATE.selector == All
    ensures Shown(courses, INITIAL_STATE) == courses
  {
    FilterIdentity(courses);
  }

  /** The message appears exactly when no course of the catalog is shown; an empty catalog always shows it. */
  lemma NoCoursesIff(courses: seq<Course>, st: FilterState)
    ensures ShowsNoCourses(courses, st)
        <==> forall i :: 0 <= i < |courses| ==> !Visible(courses[i], st.query, st.selector)
    ensures courses == [] ==> ShowsNoCourses(courses, st)
  {
    var r := Shown(courses, st);
    FilterMembers(courses, st.query, st.selector);
    if r != [] {
      assert r[0] in r;
    }
  }
}
