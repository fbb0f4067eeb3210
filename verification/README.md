# Course-catalog filter of the EduBlend landing page

The landing page shows a fixed catalog of eight courses. It has two controls: a search box and
a row of four level buttons. The buttons set the values "all", "beginner", "intermediate" and
"advanced"; they display them in capitals, and the first as "All". The courses shown are those
whose title or description contains the search text, ignoring case, and whose level agrees with
the selected value. They appear in catalog order. When none is left, the page
shows "No courses found".

This project models that filter and the catalog it runs on, in five modules:

- `Wrappers` (wrappers.dfy): the `Option` type used when reading the level and selector values.
- `Text` (text.dfy): the string operations the filter is built from.
  - `toLowerCase`, restricted to ASCII.
  - `String.prototype.includes`, through ECMAScript's abstract operation StringIndexOf: a
    literal substring test, where the empty needle is found at once.
  - The case-insensitive test the filter builds from the two.
  - A character-folding search proved equivalent to that test. It lets short literal words be
    decided by unfolding.
- `Catalog` (catalog.dfy): the `Course` record, the three levels and the `COURSES` constant.
  - Every field is copied from the source.
  - Each title and description is written as the list of its words, each but the last keeping
    its trailing space. `Text.Concat` joins the list back into exactly the source's text.
- `CourseFilter` (filter.dfy): the level selector, the per-course test, and the filter.
  - The filter is a pure function plus a loop that builds the same list.
  - Its properties: order, multiplicity, soundness and completeness, identity,
    case-insensitivity, level narrowing and idempotence.
  - It also covers the page state and the "No courses found" condition.
- `Scenarios` (scenarios.dfy): the filter on the real catalog: "react", "REACT", and the empty
  search with one level selected.

## Model

| member | source | states |
|---|---|---|
| `Text.LowerChar` | src/App.tsx:85-86 | an ASCII capital 'A'-'Z' becomes the same letter in 'a'-'z', every other character is left as it is, and the result is never a capital |
| `Text.LowerCharEqualIff` | src/App.tsx:85-86 | two characters lower-case alike exactly when they are the same character up to ASCII letter case |
| `Text.ToLowerEqualIff` | src/App.tsx:85-86 | two strings lower-case alike exactly when they have the same length and agree at every position up to ASCII letter case |
| `Text.ToLower` | src/App.tsx:85-86 | `toLowerCase` keeps the length and lower-cases every character in place, so the result holds no ASCII capital |
| `Text.ToLowerAppend` | src/App.tsx:85-86 | lower-casing a concatenation lower-cases each part separately |
| `Text.ToLowerIdempotent` | src/App.tsx:85-86 | lower-casing an already lower-cased string changes nothing |
| `Text.IndexOfFinds` | src/App.tsx:85-86 | StringIndexOf returns an occurrence at or after the start position, the first such, and -1 exactly when there is none |
| `Text.IncludesIff` | src/App.tsx:85-86 | `includes` holds exactly when the needle occurs at some position of the haystack |
| `Text.IncludesEmpty` | src/App.tsx:85-86 | the empty string is included in every string |
| `Text.IncludesIgnoringCaseOfLower` | src/App.tsx:85-86 | the case-insensitive test gives the same answer for a query and for its lower-case form |
| `Text.ChunksMatch` | src/App.tsx:85-86 | a search text without spaces is found, ignoring case, in a text cut right after its spaces exactly when it is found in one of the pieces |
| `Text.FoldedIncludes` | src/App.tsx:85-86 | the character-folding search from position 0 agrees with lower-casing both strings and calling `includes` |
| `Catalog.ParseLevel` | src/constants.ts:5 | exactly the three strings "beginner", "intermediate" and "advanced" are levels, and each is read back as the level carrying that name |
| `Catalog.LevelNameRoundTrip` | src/constants.ts:5 | every level is read back from its own name, so the three names are distinct |
| `Catalog.CatalogIds` | src/constants.ts:11-84 | the catalog has eight entries whose ids are "1" to "8" in order, pairwise distinct |
| `Catalog.CatalogHasText` | src/constants.ts:11-84 | every catalog entry has a non-empty title and a non-empty description |
| `Catalog.CatalogLevels` | src/constants.ts:11-84 | entry 1 is advanced, entries 3 and 4 are beginner, and the other five are intermediate |
| `CourseFilter.ParseSelector` | src/App.tsx:81 | exactly the four values of `activeFilter` are accepted, and each is read back as the selector holding that value |
| `CourseFilter.SelectorRoundTrip` | src/App.tsx:236-239 | every selector holds one of the four values the level buttons set and is read back from it |
| `CourseFilter.Filter` | src/App.tsx:83-90 | the filter never returns more courses than the catalog holds |
| `CourseFilter.FilterAppend` | src/App.tsx:84-89 | filtering a concatenation is the concatenation of the filtered parts, because each course is judged on its own |
| `CourseFilter.FilterSplit` | src/App.tsx:84-89 | the result at any position is what precedes it, that course if shown, and what follows it |
| `CourseFilter.FilterSnoc` | src/App.tsx:84-89 | adding a course at the end of the catalog adds it at the end of the result when shown and changes nothing otherwise |
| `CourseFilter.FilterCourses` | src/App.tsx:83-90 | the one-pass loop over the catalog builds exactly the filtered list |
| `CourseFilter.FilterIsSubsequence` | src/App.tsx:84 | the result is a subsequence of the catalog: its courses sit at strictly increasing catalog positions |
| `CourseFilter.FilterMultiplicity` | src/App.tsx:84-89 | a shown course occurs in the result as often as in the catalog, and a hidden one not at all |
| `CourseFilter.FilterMembers` | src/App.tsx:84-89 | a course is in the result exactly when it is in the catalog and passes both the search and the level test |
| `CourseFilter.EmptySearchMatches` | src/App.tsx:85-86 | the empty search text matches every course |
| `CourseFilter.FilterIdentity` | src/App.tsx:80-90 | the empty search with "all" selected gives back the whole catalog, unchanged |
| `CourseFilter.FilterIgnoresCase` | src/App.tsx:85-86 | two search texts with the same lower-case form give the same result |
| `CourseFilter.FilterIgnoresLetterCase` | src/App.tsx:85-86 | two search texts that differ only in the case of ASCII letters give the same result |
| `CourseFilter.FilterOnlyNarrowsAll` | src/App.tsx:87 | with one level selected, every shown course has that level; the result is the "all" result narrowed to that level, and a subsequence of it |
| `CourseFilter.FilterIdempotent` | src/App.tsx:83-90 | filtering the result again with the same inputs changes nothing |
| `CourseFilter.InitialShowsAll` | src/App.tsx:80-81 | the page starts with an empty search and "all" selected, and so shows the whole catalog |
| `CourseFilter.NoCoursesIff` | src/App.tsx:264 | "No courses found" appears exactly when no catalog course passes both tests; an empty catalog always shows it |
| `Scenarios.ReactOnlyInCourse2` | src/constants.ts:11-84 | "react" occurs, ignoring case, in the title or description of course 2 and of no other course |
| `Scenarios.ReactFindsCourse2` | src/App.tsx:83-90 | searching "react" with "all" selected shows course 2 alone |
| `Scenarios.ReactFindsNoBeginnerCourse` | src/App.tsx:83-90 | searching "react" with "beginner" selected shows nothing |
| `Scenarios.UpperCaseReactFindsCourse2` | src/App.tsx:85-86 | searching "REACT" shows the same single course as "react" |
| `Scenarios.AdvancedIsCourse1` | src/App.tsx:83-90 | the empty search with "advanced" selected shows course 1 alone |
| `Scenarios.BeginnerIsCourses3And4` | src/App.tsx:83-90 | the empty search with "beginner" selected shows courses 3 and 4, in that order |

## Left out

- Rendering: the JSX markup, the course cards, the animations and the icons. They display the
  filter's result and compute nothing.
- React hooks: `useState` and `useMemo`. The two pieces of state are the `FilterState` record,
  and the memoised list is the pure function `Filter` of that state.
- Event handlers: they only store the typed text or the clicked button's value. The filter is modelled
  for every text and every selector.
- `toLowerCase` beyond ASCII. JavaScript lower-cases the whole of Unicode, including characters
  that change length. The model lower-cases only A to Z. Every catalog text and every query in
  the scenarios is ASCII, where the two agree.
- UTF-16: JavaScript strings are sequences of UTF-16 code units, while a Dafny `char` is a
  Unicode scalar value. `includes` gives the same answer on well-formed text, but a lone
  surrogate in a search text cannot be represented in the model.
- `duration`, `category` and `image`: they are carried as opaque strings and never take part
  in filtering.
- The search "zzz-no-match": deciding it on the real catalog means checking every word of all
  sixteen texts once more. The scenarios cover "react" and the empty search instead.
- CourseFilter.Filter: its own contract states only the length bound. Which courses it keeps
  is stated by `FilterMembers`, `FilterMultiplicity` and `FilterIsSubsequence`.
- Text.IndexOf: its own contract states only where the result can lie. What it finds is
  stated by `IndexOfFinds`.
