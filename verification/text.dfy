/**
  Strings as the course filter sees them: ASCII lower-casing (`toLowerCase`), the literal
  substring test of `String.prototype.includes` (through ECMAScript's StringIndexOf), and the
  case-insensitive test the filter builds from the two.
 */
module Text {

  /** An ASCII capital letter. */
  predicate IsUpper(c: char) {
    'A' <= c <= 'Z'
  }

  /** Lower-cases one character; only the ASCII capitals change. */
  function LowerChar(c: char): (d: char)
    ensures IsUpper(c) ==> d as int == c as int + ('a' as int - 'A' as int)
    ensures !IsUpper(c) ==> d == c
    ensures !IsUpper(d)
  {
    if IsUpper(c) then (c as int + 32) as char else c
  }

  /** `s.toLowerCase()`, restricted to ASCII: same length, every character lower-cased. */
  function ToLower(s: string): (r: string)
    ensures |r| == |s|
    ensures forall i :: 0 <= i < |s| ==> r[i] == LowerChar(s[i])
    ensures forall i :: 0 <= i < |r| ==> !IsUpper(r[i])
  {
    if s == [] then [] else [LowerChar(s[0])] + ToLower(s[1..])
  }

  /** Lower-casing a concatenation lower-cases each part. */
  lemma ToLowerAppend(a: string, b: string)
    ensures ToLower(a + b) == ToLower(a) + ToLower(b)
  {
  }

  /** Lower-casing a lower-cased string changes nothing. */
  lemma ToLowerIdempotent(s: string)
    ensures ToLower(ToLower(s)) == ToLower(s)
  {
  }

  /** `c` and `d` are the same character up to ASCII letter case. */
  predicate SameLetter(c: char, d: char) {
    || c == d
    || (IsUpper(c) && d as int == c as int + ('a' as int - 'A' as int))
    || (IsUpper(d) && c as int == d as int + ('a' as int - 'A' as int))
  }

  /** Two characters lower-case alike exactly when they are the same letter up to case. */
  lemma LowerCharEqualIff(c: char, d: char)
    ensures LowerChar(c) == LowerChar(d) <==> SameLetter(c, d)
  {
  }

  /** `a` and `b` agree character by character up to ASCII letter case. */
  predicate SameUpToCase(a: string, b: string) {
    |a| == |b| && forall i :: 0 <= i < |a| ==> SameLetter(a[i], b[i])
  }

  /** Two strings lower-case alike exactly when they agree character by character up to case. */
  lemma ToLowerEqualIff(a: string, b: string)
    ensures ToLower(a) == ToLower(b) <==> SameUpToCase(a, b)
  {
    var la, lb := ToLower(a), ToLower(b);
    if |a| == |b| {
      forall i | 0 <= i < |a|
        ensures la[i] == lb[i] <==> SameLetter(a[i], b[i])
      {
        LowerCharEqualIff(a[i], b[i]);
      }
      assert la == lb <==> forall i :: 0 <= i < |a| ==> la[i] == lb[i];
    }
  }

  /** `needle` sits in `hay` starting at index `k`. */
  ghost predicate OccursAt(hay: string, needle: string, k: int) {
    0 <= k && k + |needle| <= |hay| && hay[k..k + |needle|] == needle
  }

  /**
    ECMAScript's StringIndexOf(hay, needle, from): the least index `k >= from` at which `needle`
    occurs in `hay`, or -1 when there is none. An empty needle is found at `from` itself.
   */
  function IndexOf(hay: string, needle: string, from: nat): (r: int)
    requires from <= |hay|
    ensures r == -1 || from <= r <= |hay| - |needle|
    decreases |hay| - from
  {
    if from + |needle| > |hay| then -1
    else if hay[from..from + |needle|] == needle then from
    else IndexOf(hay, needle, from + 1)
  }

  /**
    What StringIndexOf finds: an occurrence at or after `from`, the first one, and -1 exactly
    when there is none.
   */
  lemma {:induction false} IndexOfFinds(hay: string, needle: string, from: nat)
    requires from <= |hay|
    ensures IndexOf(hay, needle, from) != -1 ==> OccursAt(hay, needle, IndexOf(hay, needle, from))
    ensures IndexOf(hay, needle, from) == -1 <==> forall k :: from <= k ==> !OccursAt(hay, needle, k)
    ensures forall k :: from <= k < IndexOf(hay, needle, from) ==> !OccursAt(hay, needle, k)
    decreases |hay| - from
  {
    if from + |needle| > |hay| {
      forall k | from <= k
        ensures !OccursAt(hay, needle, k)
      {
      }
    } else if hay[from..from + |needle|] == needle {
      assert OccursAt(hay, needle, from);
    } else {
      IndexOfFinds(hay, needle, from + 1);
    }
  }

  /** `hay.includes(needle)`: a literal substring test, not a pattern match. */
  predicate Includes(hay: string, needle: string)
  {
    IndexOf(hay, needle, 0) != -1
  }

  /** `includes` holds exactly when the needle occurs somewhere in the haystack. */
  lemma IncludesIff(hay: string, needle: string)
    ensures Includes(hay, needle) <==> exists k :: OccursAt(hay, needle, k)
  {
    IndexOfFinds(hay, needle, 0);
    if Includes(hay, needle) {
      assert OccursAt(hay, needle, IndexOf(hay, needle, 0));
    }
  }

  /** The empty string is included in every string. */
  lemma IncludesEmpty(hay: string)
    ensures Includes(hay, "")
  {
    IndexOfFinds(hay, "", 0);
    assert OccursAt(hay, "", 0);
  }

  /** `text.toLowerCase().includes(query.toLowerCase())`. */
  predicate IncludesIgnoringCase(text: string, query: string) {
    Includes(ToLower(text), ToLower(query))
  }

  /** The case-insensitive test depends on the query only through its lower-case form. */
  lemma IncludesIgnoringCaseOfLower(text: string, query: string)
    ensures IncludesIgnoringCase(text, query) == IncludesIgnoringCase(text, ToLower(query))
  {
    ToLowerIdempotent(query);
  }

  // ----------------------------------------------------------------------------------------
  // Texts split after spaces

  /** The chunks written one after the other. */
  function Concat(chunks: seq<string>): (s: string)
    ensures |s| >= if chunks == [] then 0 else |chunks[|chunks| - 1]|
  {
    if chunks == [] then ""
    else if |chunks| == 1 then chunks[0]
    else Concat(chunks[..|chunks| - 1]) + chunks[|chunks| - 1]
  }

  /** `s` ends with a space. */
  predicate EndsWithSpace(s: string) {
    s != [] && s[|s| - 1] == ' '
  }

  /** Every chunk but the last ends with a space: the chunks cut a text right after spaces. */
  predicate CutAfterSpaces(chunks: seq<string>) {
    forall i :: 0 <= i < |chunks| - 1 ==> EndsWithSpace(chunks[i])
  }

  /** An occurrence of a space-free needle does not cover a space of the haystack. */
  lemma SpaceOutside(hay: string, needle: string, k: int, p: int)
    requires ' ' !in needle
    requires OccursAt(hay, needle, k)
    requires 0 <= p < |hay| && hay[p] == ' '
    ensures p < k || k + |needle| <= p
  {
  }

  /** An occurrence in `a` is one in `a + b` at the same index. */
  lemma OccursInPrefix(a: string, b: string, needle: string, k: int)
    requires OccursAt(a, needle, k)
    ensures OccursAt(a + b, needle, k)
  {
    assert (a + b)[k..k + |needle|] == a[k..k + |needle|];
  }

  /** An occurrence in `b` is one in `a + b`, shifted by `|a|`. */
  lemma OccursInSuffix(a: string, b: string, needle: string, k: int)
    requires OccursAt(b, needle, k)
    ensures OccursAt(a + b, needle, |a| + k)
  {
    assert (a + b)[|a|..] == b;
    assert (a + b)[|a| + k..|a| + k + |needle|] == b[k..k + |needle|];
  }

  /** An occurrence of a space-free needle in `a + b`, where `a` ends with a space, lies wholly in `a` or wholly in `b`. */
  lemma OccursAfterSpace(a: string, b: string, needle: string, k: int)
    requires ' ' !in needle
    requires EndsWithSpace(a)
    requires OccursAt(a + b, needle, k)
    ensures OccursAt(a, needle, k) || OccursAt(b, needle, k - |a|)
  {
    var s, n := a + b, |needle|;
    SpaceOutside(s, needle, k, |a| - 1);
    if k + n <= |a| {
      assert a[k..k + n] == s[k..k + n];
    } else {
      assert s[|a|..] == b;
      assert b[k - |a|..k - |a| + n] == s[k..k + n];
    }
  }

  /** A space-free needle is included in `a + b`, where `a` ends with a space, exactly when it is included in `a` or in `b`. */
  lemma IncludesAfterSpace(a: string, b: string, needle: string)
    requires ' ' !in needle
    requires EndsWithSpace(a)
    ensures Includes(a + b, needle) <==> Includes(a, needle) || Includes(b, needle)
  {
    IncludesIff(a + b, needle);
    IncludesIff(a, needle);
    IncludesIff(b, needle);
    if Includes(a + b, needle) {
      var k :| OccursAt(a + b, needle, k);
      OccursAfterSpace(a, b, needle, k);
    }
    if Includes(a, needle) {
      var k :| OccursAt(a, needle, k);
      OccursInPrefix(a, b, needle, k);
    }
    if Includes(b, needle) {
      var k :| OccursAt(b, needle, k);
      OccursInSuffix(a, b, needle, k);
    }
  }

  /** Lower-casing neither adds nor removes spaces. */
  lemma SpaceFreeLower(query: string)
    requires ' ' !in query
    ensures ' ' !in ToLower(query)
  {
  }

  /** Some chunk matches `query`, ignoring case. */
  ghost predicate SomeChunkMatches(chunks: seq<string>, query: string) {
    exists i :: 0 <= i < |chunks| && IncludesIgnoringCase(chunks[i], query)
  }

  lemma SomeChunkMatchesSnoc(chunks: seq<string>, query: string)
    requires chunks != []
    ensures SomeChunkMatches(chunks, query)
        <==> SomeChunkMatches(chunks[..|chunks| - 1], query) || IncludesIgnoringCase(chunks[|chunks| - 1], query)
  {
    var init := chunks[..|chunks| - 1];
    if SomeChunkMatches(init, query) {
      var i :| 0 <= i < |init| && IncludesIgnoringCase(init[i], query);
      assert chunks[i] == init[i];
    }
    if SomeChunkMatches(chunks, query) {
      var i :| 0 <= i < |chunks| && IncludesIgnoringCase(chunks[i], query);
      if i < |init| {
        assert init[i] == chunks[i];
      }
    }
  }

  /**
    A query without spaces matches a text cut right after spaces, ignoring case, exactly when
    it matches one of the chunks.
   */
  lemma {:induction false} ChunksMatch(chunks: seq<string>, query: string)
    requires chunks != []
    requires CutAfterSpaces(chunks)
    requires ' ' !in query
    ensures IncludesIgnoringCase(Concat(chunks), query) <==> SomeChunkMatches(chunks, query)
  {
    SomeChunkMatchesSnoc(chunks, query);
    if |chunks| > 1 {
      var init, last := chunks[..|chunks| - 1], chunks[|chunks| - 1];
      CutInit(chunks);
      ChunksMatch(init, query);
      ToLowerAppend(Concat(init), last);
      SpaceFreeLower(query);
      IncludesAfterSpace(ToLower(Concat(init)), ToLower(last), ToLower(query));
    }
  }

  /** Dropping the last chunk keeps the cut, and what remains ends with a space. */
  lemma CutInit(chunks: seq<string>)
    requires |chunks| > 1
    requires CutAfterSpaces(chunks)
    ensures CutAfterSpaces(chunks[..|chunks| - 1])
    ensures EndsWithSpace(Concat(chunks[..|chunks| - 1]))
  {
    var init := chunks[..|chunks| - 1];
    assert init[|init| - 1] == chunks[|chunks| - 2];
    ConcatEndsWithLast(init);
  }

  /** A concatenation ends with the end of its last chunk. */
  lemma ConcatEndsWithLast(chunks: seq<string>)
    requires chunks != [] && EndsWithSpace(chunks[|chunks| - 1])
    ensures EndsWithSpace(Concat(chunks))
  {
  }

  // ----------------------------------------------------------------------------------------
  // A character-by-character, case-folding search: the same test as `IncludesIgnoringCase`,
  // written so that short literal words can be decided by unfolding.

  /** `needle[j..]` equals `hay[k + j..k + |needle|]` once both are lower-cased. */
  predicate FoldedMatchFrom(hay: string, needle: string, k: nat, j: nat)
    requires k + |needle| <= |hay| && j <= |needle|
    decreases |needle| - j
  {
    j == |needle| || (LowerChar(hay[k + j]) == LowerChar(needle[j]) && FoldedMatchFrom(hay, needle, k, j + 1))
  }

  /** `needle` occurs, ignoring case, at some index `k` or later of `hay`. */
  predicate FoldedFrom(hay: string, needle: string, k: nat)
    requires k <= |hay|
    decreases |hay| - k
  {
    (k + |needle| <= |hay| && FoldedMatchFrom(hay, needle, k, 0)) || (k < |hay| && FoldedFrom(hay, needle, k + 1))
  }

  lemma {:induction false} FoldedMatchFromIff(hay: string, needle: string, k: nat, j: nat)
    requires k + |needle| <= |hay| && j <= |needle|
    ensures FoldedMatchFrom(hay, needle, k, j)
        <==> forall t :: j <= t < |needle| ==> LowerChar(hay[k + t]) == LowerChar(needle[t])
    decreases |needle| - j
  {
    if j < |needle| {
      FoldedMatchFromIff(hay, needle, k, j + 1);
    }
  }

  /** A folded match at `k` is an occurrence of the lower-cased needle in the lower-cased haystack. */
  lemma FoldedMatchIsOccurrence(hay: string, needle: string, k: nat)
    requires k + |needle| <= |hay|
    ensures FoldedMatchFrom(hay, needle, k, 0) <==> OccursAt(ToLower(hay), ToLower(needle), k)
  {
    FoldedMatchFromIff(hay, needle, k, 0);
    var h, n := ToLower(hay), ToLower(needle);
    if FoldedMatchFrom(hay, needle, k, 0) {
      assert h[k..k + |n|] == n by {
        forall t | 0 <= t < |n|
          ensures h[k..k + |n|][t] == n[t]
        {
          assert h[k + t] == LowerChar(hay[k + t]);
        }
      }
    }
    if OccursAt(h, n, k) {
      forall t | 0 <= t < |needle|
        ensures LowerChar(hay[k + t]) == LowerChar(needle[t])
      {
        assert h[k..k + |n|][t] == n[t];
      }
    }
  }

  lemma {:induction false} FoldedFromIff(hay: string, needle: string, k: nat)
    requires k <= |hay|
    ensures FoldedFrom(hay, needle, k) <==> exists m :: k <= m && OccursAt(ToLower(hay), ToLower(needle), m)
    decreases |hay| - k
  {
    var h, n := ToLower(hay), ToLower(needle);
    if k + |needle| <= |hay| {
      FoldedMatchIsOccurrence(hay, needle, k);
    }
    if k < |hay| {
      FoldedFromIff(hay, needle, k + 1);
    }
    if exists m :: k <= m && OccursAt(h, n, m) {
      var m :| k <= m && OccursAt(h, n, m);
      if m == k {
        assert FoldedMatchFrom(hay, needle, k, 0);
      } else {
        assert k + 1 <= m;
      }
    }
  }

  /** The folding search from index 0 decides the filter's case-insensitive test. */
  lemma FoldedIncludes(hay: string, needle: string)
    ensures FoldedFrom(hay, needle, 0) <==> IncludesIgnoringCase(hay, needle)
  {
    var h, n := ToLower(hay), ToLower(needle);
    FoldedFromIff(hay, needle, 0);
    IncludesIff(h, n);
    if Includes(h, n) {
      var k :| OccursAt(h, n, k);
      assert 0 <= k && OccursAt(ToLower(hay), ToLower(needle), k);
      assert exists m :: 0 <= m && OccursAt(ToLower(hay), ToLower(needle), m);
      assert FoldedFrom(hay, needle, 0);
    }
  }
}
