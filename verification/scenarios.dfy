/**
  The filter run on the page's own catalog: the outcomes of a few concrete searches. A text is
  examined one word at a time: a search text without spaces occurs in a text cut after its
  spaces exactly when it occurs in one of the words (`Text.ChunksMatch`), and each word is
  decided by the character-folding search (`Text.FoldedIncludes`).
 */
module Scenarios {
  import opened Text
  import opened Catalog
  import opened CourseFilter

  /** The folding search finds `query` in none of the words `chunks[lo..hi]`. */
  predicate WordsAvoid(chunks: seq<string>, query: string, lo: nat, hi: nat) {
    forall i :: lo <= i < hi && i < |chunks| ==> !FoldedFrom(chunks[i], query, 0)
  }

  /** The folding search finds `query` in no word of `chunks`. */
  predicate NoChunkFolds(chunks: seq<string>, query: string) {
    WordsAvoid(chunks, query, 0, |chunks|)
  }

  /** A space-free query found in no word is not in the text, ignoring case. */
  lemma TextAvoids(chunks: seq<string>, query: string)
    requires chunks != [] && CutAfterSpaces(chunks)
    requires ' ' !in query
    requires NoChunkFolds(chunks, query)
    ensures !IncludesIgnoringCase(Concat(chunks), query)
  {
    forall i | 0 <= i < |chunks|
      ensures !IncludesIgnoringCase(chunks[i], query)
    {
      FoldedIncludes(chunks[i], query);
    }
    ChunksMatch(chunks, query);
  }

  /** A query found in one word is in the text, ignoring case. */
  lemma TextHas(chunks: seq<string>, query: string, i: int)
    requires chunks != [] && CutAfterSpaces(chunks)
    requires ' ' !in query
    requires 0 <= i < |chunks| && FoldedFrom(chunks[i], query, 0)
    ensures IncludesIgnoringCase(Concat(chunks), query)
  {
    FoldedIncludes(chunks[i], query);
    ChunksMatch(chunks, query);
  }

  /** A course whose title and description both miss the search text is not matched. */
  lemma CourseAvoids(c: Course, title: string, description: string, query: string)
    requires c.title == title && c.description == description
    requires !IncludesIgnoringCase(title, query) && !IncludesIgnoringCase(description, query)
    ensures !MatchesSearch(c, query)
  {
  }

  // ----------------------------------------------------------------------------------------
  // The filter over a catalog of eight courses

  /** One step of the filter from position `k` on. */
  lemma FilterFrom(courses: seq<Course>, query: string, sel: Selector, k: int)
    requires 0 <= k < |courses|
    ensures Filter(courses[k..], query, sel)
         == Kept(courses[k], query, sel) + Filter(courses[k + 1..], query, sel)
  {
    assert courses[k..][1..] == courses[k + 1..];
  }

  /** The filter over eight courses, written out course by course. */
  lemma FilterOfEight(cs: seq<Course>, query: string, sel: Selector)
    requires |cs| == 8
    ensures Filter(cs, query, sel)
         == Kept(cs[0], query, sel) + (Kept(cs[1], query, sel) + (Kept(cs[2], query, sel)
          + (Kept(cs[3], query, sel) + (Kept(cs[4], query, sel) + (Kept(cs[5], query, sel)
          + (Kept(cs[6], query, sel) + Kept(cs[7], query, sel)))))))
  {
    assert cs[0..] == cs;
    assert cs[8..] == [];
    FilterFrom(cs, query, sel, 7);
    assert Filter(cs[7..], query, sel) == Kept(cs[7], query, sel);
    FilterFrom(cs, query, sel, 6);
    FilterFrom(cs, query, sel, 5);
    FilterFrom(cs, query, sel, 4);
    FilterFrom(cs, query, sel, 3);
    FilterFrom(cs, query, sel, 2);
    FilterFrom(cs, query, sel, 1);
    FilterFrom(cs, query, sel, 0);
  }

  /** Of eight courses only the second is shown: the result is that course alone. */
  lemma SecondOfEightAlone(cs: seq<Course>, query: string, sel: Selector)
    requires |cs| == 8
    requires !Visible(cs[0], query, sel) && Visible(cs[1], query, sel)
    requires !Visible(cs[2], query, sel) && !Visible(cs[3], query, sel)
    requires !Visible(cs[4], query, sel) && !Visible(cs[5], query, sel)
    requires !Visible(cs[6], query, sel) && !Visible(cs[7], query, sel)
    ensures Filter(cs, query, sel) == [cs[1]]
  {
    FilterOfEight(cs, query, sel);
  }

  /** Of eight courses none is shown: the result is empty. */
  lemma NoneOfEightShown(cs: seq<Course>, query: string, sel: Selector)
    requires |cs| == 8
    requires !Visible(cs[0], query, sel) && !Visible(cs[1], query, sel)
    requires !Visible(cs[2], query, sel) && !Visible(cs[3], query, sel)
    requires !Visible(cs[4], query, sel) && !Visible(cs[5], query, sel)
    requires !Visible(cs[6], query, sel) && !Visible(cs[7], query, sel)
    ensures Filter(cs, query, sel) == []
  {
    FilterOfEight(cs, query, sel);
  }

  /** Of eight courses only the first is shown: the result is that course alone. */
  lemma FirstOfEightAlone(cs: seq<Course>, query: string, sel: Selector)
    requires |cs| == 8
    requires Visible(cs[0], query, sel) && !Visible(cs[1], query, sel)
    requires !Visible(cs[2], query, sel) && !Visible(cs[3], query, sel)
    requires !Visible(cs[4], query, sel) && !Visible(cs[5], query, sel)
    requires !Visible(cs[6], query, sel) && !Visible(cs[7], query, sel)
    ensures Filter(cs, query, sel) == [cs[0]]
  {
    FilterOfEight(cs, query, sel);
  }

  /** Of eight courses only the third and the fourth are shown: the result is those two, in order. */
  lemma ThirdAndFourthOfEight(cs: seq<Course>, query: string, sel: Selector)
    requires |cs| == 8
    requires !Visible(cs[0], query, sel) && !Visible(cs[1], query, sel)
    requires Visible(cs[2], query, sel) && Visible(cs[3], query, sel)
    requires !Visible(cs[4], query, sel) && !Visible(cs[5], query, sel)
    requires !Visible(cs[6], query, sel) && !Visible(cs[7], query, sel)
    ensures Filter(cs, query, sel) == [cs[2], cs[3]]
  {
    FilterOfEight(cs, query, sel);
  }

  // ----------------------------------------------------------------------------------------
  // The texts of each catalog entry

  lemma Course1Texts()
    ensures COURSES[0].title == Concat(TITLE_1)
    ensures COURSES[0].description == Concat(DESCRIPTION_1)
  {
  }

  lemma Course2Texts()
    ensures COURSES[1].title == Concat(TITLE_2)
    ensures COURSES[1].description == Concat(DESCRIPTION_2)
  {
  }

  lemma Course3Texts()
    ensures COURSES[2].title == Concat(TITLE_3)
    ensures COURSES[2].description == Concat(DESCRIPTION_3)
  {
  }

  lemma Course4Texts()
    ensures COURSES[3].title == Concat(TITLE_4)
    ensures COURSES[3].description == Concat(DESCRIPTION_4)
  {
  }

  lemma Course5Texts()
    ensures COURSES[4].title == Concat(TITLE_5)
    ensures COURSES[4].description == Concat(DESCRIPTION_5)
  {
  }

  lemma Course6Texts()
    ensures COURSES[5].title == Concat(TITLE_6)
    ensures COURSES[5].description == Concat(DESCRIPTION_6)
  {
  }

  lemma Course7Texts()
    ensures COURSES[6].title == Concat(TITLE_7)
    ensures COURSES[6].description == Concat(DESCRIPTION_7)
  {
  }

  lemma Course8Texts()
    ensures COURSES[7].title == Concat(TITLE_8)
    ensures COURSES[7].description == Concat(DESCRIPTION_8)
  {
  }

  // ----------------------------------------------------------------------------------------
  // The search text "react"

  // The words of each text other than course 2's, checked a few at a time.

  lemma Title1WordsAvoidReact0To3()
    ensures WordsAvoid(TITLE_1, "react", 0, 3)
  {
    assert !FoldedFrom(TITLE_1[0], "react", 0);
    assert !FoldedFrom(TITLE_1[1], "react", 0);
    assert !FoldedFrom(TITLE_1[2], "react", 0);
  }

  lemma Description1WordsAvoidReact0To3()
    ensures WordsAvoid(DESCRIPTION_1, "react", 0, 3)
  {
    assert !FoldedFrom(DESCRIPTION_1[0], "react", 0);
    assert !FoldedFrom(DESCRIPTION_1[1], "react", 0);
    assert !FoldedFrom(DESCRIPTION_1[2], "react", 0);
  }

  lemma Description1WordsAvoidReact3To6()
    ensures WordsAvoid(DESCRIPTION_1, "react", 3, 6)
  {
    assert !FoldedFrom(DESCRIPTION_1[3], "react", 8);
    assert !FoldedFrom(DESCRIPTION_1[3], "react", 4);
    assert !FoldedFrom(DESCRIPTION_1[3], "react", 0);
    assert !FoldedFrom(DESCRIPTION_1[4], "react", 0);
    assert !FoldedFrom(DESCRIPTION_1[5], "react", 0);
  }

  lemma Description1WordsAvoidReact6To10()
    ensures WordsAvoid(DESCRIPTION_1, "react", 6, 10)
  {
    assert !FoldedFrom(DESCRIPTION_1[6], "react", 0);
    assert !FoldedFrom(DESCRIPTION_1[7], "react", 0);
    assert !FoldedFrom(DESCRIPTION_1[8], "react", 8);
    assert !FoldedFrom(DESCRIPTION_1[8], "react", 4);
    assert !FoldedFrom(DESCRIPTION_1[8], "react", 0);
    assert !FoldedFrom(DESCRIPTION_1[9], "react", 0);
  }

  lemma Description1WordsAvoidReact10To14()
    ensures WordsAvoid(DESCRIPTION_1, "react", 10, 14)
  {
    assert !FoldedFrom(DESCRIPTION_1[10], "react", 0);
    assert !FoldedFrom(DESCRIPTION_1[11], "react", 0);
    assert !FoldedFrom(DESCRIPTION_1[12], "react", 0);
    assert !FoldedFrom(DESCRIPTION_1[13], "react", 0);
  }

  lemma Description1WordsAvoidReact14To15()
    ensures WordsAvoid(DESCRIPTION_1, "react", 14, 15)
  {
    assert !FoldedFrom(DESCRIPTION_1[14], "react", 0);
  }

  lemma Title3WordsAvoidReact0To2()
    ensures WordsAvoid(TITLE_3, "react", 0, 2)
  {
    assert !FoldedFrom(TITLE_3[0], "react", 0);
    assert !FoldedFrom(TITLE_3[1], "react", 0);
  }

  lemma Description3WordsAvoidReact0To4()
    ensures WordsAvoid(DESCRIPTION_3, "react", 0, 4)
  {
    assert !FoldedFrom(DESCRIPTION_3[0], "react", 0);
    assert !FoldedFrom(DESCRIPTION_3[1], "react", 0);
    assert !FoldedFrom(DESCRIPTION_3[2], "react", 0);
    assert !FoldedFrom(DESCRIPTION_3[3], "react", 0);
  }

  lemma Description3WordsAvoidReact4To7()
    ensures WordsAvoid(DESCRIPTION_3, "react", 4, 7)
  {
    assert !FoldedFrom(DESCRIPTION_3[4], "react", 0);
    assert !FoldedFrom(DESCRIPTION_3[5], "react", 8);
    assert !FoldedFrom(DESCRIPTION_3[5], "react", 4);
    assert !FoldedFrom(DESCRIPTION_3[5], "react", 0);
    assert !FoldedFrom(DESCRIPTION_3[6], "react", 0);
  }

  lemma Description3WordsAvoidReact7To10()
    ensures WordsAvoid(DESCRIPTION_3, "react", 7, 10)
  {
    assert !FoldedFrom(DESCRIPTION_3[7], "react", 0);
    assert !FoldedFrom(DESCRIPTION_3[8], "react", 0);
    assert !FoldedFrom(DESCRIPTION_3[9], "react", 8);
    assert !FoldedFrom(DESCRIPTION_3[9], "react", 4);
    assert !FoldedFrom(DESCRIPTION_3[9], "react", 0);
  }

  lemma Description3WordsAvoidReact10To13()
    ensures WordsAvoid(DESCRIPTION_3, "react", 10, 13)
  {
    assert !FoldedFrom(DESCRIPTION_3[10], "react", 4);
    assert !FoldedFrom(DESCRIPTION_3[10], "react", 0);
    assert !FoldedFrom(DESCRIPTION_3[11], "react", 0);
    assert !FoldedFrom(DESCRIPTION_3[12], "react", 0);
  }

  lemma Title4WordsAvoidReact0To2()
    ensures WordsAvoid(TITLE_4, "react", 0, 2)
  {
    assert !FoldedFrom(TITLE_4[0], "react", 0);
    assert !FoldedFrom(TITLE_4[1], "react", 4);
    assert !FoldedFrom(TITLE_4[1], "react", 0);
  }

  lemma Description4WordsAvoidReact0To4()
    ensures WordsAvoid(DESCRIPTION_4, "react", 0, 4)
  {
    assert !FoldedFrom(DESCRIPTION_4[0], "react", 0);
    assert !FoldedFrom(DESCRIPTION_4[1], "react", 0);
    assert !FoldedFrom(DESCRIPTION_4[2], "react", 8);
    assert !FoldedFrom(DESCRIPTION_4[2], "react", 4);
    assert !FoldedFrom(DESCRIPTION_4[2], "react", 0);
    assert !FoldedFrom(DESCRIPTION_4[3], "react", 0);
  }

  lemma Description4WordsAvoidReact4To8()
    ensures WordsAvoid(DESCRIPTION_4, "react", 4, 8)
  {
    assert !FoldedFrom(DESCRIPTION_4[4], "react", 0);
    assert !FoldedFrom(DESCRIPTION_4[5], "react", 0);
    assert !FoldedFrom(DESCRIPTION_4[6], "react", 0);
    assert !FoldedFrom(DESCRIPTION_4[7], "react", 0);
  }

  lemma Description4WordsAvoidReact8To10()
    ensures WordsAvoid(DESCRIPTION_4, "react", 8, 10)
  {
    assert !FoldedFrom(DESCRIPTION_4[8], "react", 8);
    assert !FoldedFrom(DESCRIPTION_4[8], "react", 4);
    assert !FoldedFrom(DESCRIPTION_4[8], "react", 0);
    assert !FoldedFrom(DESCRIPTION_4[9], "react", 8);
    assert !FoldedFrom(DESCRIPTION_4[9], "react", 4);
    assert !FoldedFrom(DESCRIPTION_4[9], "react", 0);
  }

  lemma Description4WordsAvoidReact10To14()
    ensures WordsAvoid(DESCRIPTION_4, "react", 10, 14)
  {
    assert !FoldedFrom(DESCRIPTION_4[10], "react", 0);
    assert !FoldedFrom(DESCRIPTION_4[11], "react", 0);
    assert !FoldedFrom(DESCRIPTION_4[12], "react", 0);
    assert !FoldedFrom(DESCRIPTION_4[13], "react", 0);
  }

  lemma Title5WordsAvoidReact0To4()
    ensures WordsAvoid(TITLE_5, "react", 0, 4)
  {
    assert !FoldedFrom(TITLE_5[0], "react", 0);
    assert !FoldedFrom(TITLE_5[1], "react", 0);
    assert !FoldedFrom(TITLE_5[2], "react", 0);
    assert !FoldedFrom(TITLE_5[3], "react", 0);
  }

  lemma Title5WordsAvoidReact4To7()
    ensures WordsAvoid(TITLE_5, "react", 4, 7)
  {
    assert !FoldedFrom(TITLE_5[4], "react", 0);
    assert !FoldedFrom(TITLE_5[5], "react", 0);
    assert !FoldedFrom(TITLE_5[6], "react", 0);
  }

  lemma Description5WordsAvoidReact0To3()
    ensures WordsAvoid(DESCRIPTION_5, "react", 0, 3)
  {
    assert !FoldedFrom(DESCRIPTION_5[0], "react", 0);
    assert !FoldedFrom(DESCRIPTION_5[1], "react", 8);
    assert !FoldedFrom(DESCRIPTION_5[1], "react", 4);
    assert !FoldedFrom(DESCRIPTION_5[1], "react", 0);
    assert !FoldedFrom(DESCRIPTION_5[2], "react", 0);
  }

  lemma Description5WordsAvoidReact3To7()
    ensures WordsAvoid(DESCRIPTION_5, "react", 3, 7)
  {
    assert !FoldedFrom(DESCRIPTION_5[3], "react", 0);
    assert !FoldedFrom(DESCRIPTION_5[4], "react", 0);
    assert !FoldedFrom(DESCRIPTION_5[5], "react", 8);
    assert !FoldedFrom(DESCRIPTION_5[5], "react", 4);
    assert !FoldedFrom(DESCRIPTION_5[5], "react", 0);
    assert !FoldedFrom(DESCRIPTION_5[6], "react", 0);
  }

  lemma Description5WordsAvoidReact7To10()
    ensures WordsAvoid(DESCRIPTION_5, "react", 7, 10)
  {
    assert !FoldedFrom(DESCRIPTION_5[7], "react", 0);
    assert !FoldedFrom(DESCRIPTION_5[8], "react", 4);
    assert !FoldedFrom(DESCRIPTION_5[8], "react", 0);
    assert !FoldedFrom(DESCRIPTION_5[9], "react", 0);
  }

  lemma Description5WordsAvoidReact10To11()
    ensures WordsAvoid(DESCRIPTION_5, "react", 10, 11)
  {
    assert !FoldedFrom(DESCRIPTION_5[10], "react", 8);
    assert !FoldedFrom(DESCRIPTION_5[10], "react", 4);
    assert !FoldedFrom(DESCRIPTION_5[10], "react", 0);
  }

  lemma Title6WordsAvoidReact0To3()
    ensures WordsAvoid(TITLE_6, "react", 0, 3)
  {
    assert !FoldedFrom(TITLE_6[0], "react", 0);
    assert !FoldedFrom(TITLE_6[1], "react", 0);
    assert !FoldedFrom(TITLE_6[2], "react", 0);
  }

  lemma Description6WordsAvoidReact0To4()
    ensures WordsAvoid(DESCRIPTION_6, "react", 0, 4)
  {
    assert !FoldedFrom(DESCRIPTION_6[0], "react", 0);
    assert !FoldedFrom(DESCRIPTION_6[1], "react", 8);
    assert !FoldedFrom(DESCRIPTION_6[1], "react", 4);
    assert !FoldedFrom(DESCRIPTION_6[1], "react", 0);
    assert !FoldedFrom(DESCRIPTION_6[2], "react", 0);
    assert !FoldedFrom(DESCRIPTION_6[3], "react", 0);
  }

  lemma Description6WordsAvoidReact4To8()
    ensures WordsAvoid(DESCRIPTION_6, "react", 4, 8)
  {
    assert !FoldedFrom(DESCRIPTION_6[4], "react", 0);
    assert !FoldedFrom(DESCRIPTION_6[5], "react", 0);
    assert !FoldedFrom(DESCRIPTION_6[6], "react", 0);
    assert !FoldedFrom(DESCRIPTION_6[7], "react", 0);
  }

  lemma Description6WordsAvoidReact8To12()
    ensures WordsAvoid(DESCRIPTION_6, "react", 8, 12)
  {
    assert !FoldedFrom(DESCRIPTION_6[8], "react", 0);
    assert !FoldedFrom(DESCRIPTION_6[9], "react", 0);
    assert !FoldedFrom(DESCRIPTION_6[10], "react", 8);
    assert !FoldedFrom(DESCRIPTION_6[10], "react", 4);
    assert !FoldedFrom(DESCRIPTION_6[10], "react", 0);
    assert !FoldedFrom(DESCRIPTION_6[11], "react", 0);
  }

  lemma Description6WordsAvoidReact12To14()
    ensures WordsAvoid(DESCRIPTION_6, "react", 12, 14)
  {
    assert !FoldedFrom(DESCRIPTION_6[12], "react", 0);
    assert !FoldedFrom(DESCRIPTION_6[13], "react", 0);
  }

  lemma Title7WordsAvoidReact0To4()
    ensures WordsAvoid(TITLE_7, "react", 0, 4)
  {
    assert !FoldedFrom(TITLE_7[0], "react", 0);
    assert !FoldedFrom(TITLE_7[1], "react", 0);
    assert !FoldedFrom(TITLE_7[2], "react", 0);
    assert !FoldedFrom(TITLE_7[3], "react", 0);
  }

  lemma Description7WordsAvoidReact0To3()
    ensures WordsAvoid(DESCRIPTION_7, "react", 0, 3)
  {
    assert !FoldedFrom(DESCRIPTION_7[0], "react", 0);
    assert !FoldedFrom(DESCRIPTION_7[1], "react", 0);
    assert !FoldedFrom(DESCRIPTION_7[2], "react", 8);
    assert !FoldedFrom(DESCRIPTION_7[2], "react", 4);
    assert !FoldedFrom(DESCRIPTION_7[2], "react", 0);
  }

  lemma Description7WordsAvoidReact3To5()
    ensures WordsAvoid(DESCRIPTION_7, "react", 3, 5)
  {
    assert !FoldedFrom(DESCRIPTION_7[3], "react", 0);
    assert !FoldedFrom(DESCRIPTION_7[4], "react", 0);
  }

  lemma Description7WordsAvoidReact5To8()
    ensures WordsAvoid(DESCRIPTION_7, "react", 5, 8)
  {
    assert !FoldedFrom(DESCRIPTION_7[5], "react", 12);
    assert !FoldedFrom(DESCRIPTION_7[5], "react", 8);
    assert !FoldedFrom(DESCRIPTION_7[5], "react", 4);
    assert !FoldedFrom(DESCRIPTION_7[5], "react", 0);
    assert !FoldedFrom(DESCRIPTION_7[6], "react", 0);
    assert !FoldedFrom(DESCRIPTION_7[7], "react", 0);
  }

  lemma Description7WordsAvoidReact8To12()
    ensures WordsAvoid(DESCRIPTION_7, "react", 8, 12)
  {
    assert !FoldedFrom(DESCRIPTION_7[8], "react", 0);
    assert !FoldedFrom(DESCRIPTION_7[9], "react", 4);
    assert !FoldedFrom(DESCRIPTION_7[9], "react", 0);
    assert !FoldedFrom(DESCRIPTION_7[10], "react", 0);
    assert !FoldedFrom(DESCRIPTION_7[11], "react", 0);
  }

  lemma Description7WordsAvoidReact12To13()
    ensures WordsAvoid(DESCRIPTION_7, "react", 12, 13)
  {
    assert !FoldedFrom(DESCRIPTION_7[12], "react", 0);
  }

  lemma Title8WordsAvoidReact0To2()
    ensures WordsAvoid(TITLE_8, "react", 0, 2)
  {
    assert !FoldedFrom(TITLE_8[0], "react", 0);
    assert !FoldedFrom(TITLE_8[1], "react", 4);
    assert !FoldedFrom(TITLE_8[1], "react", 0);
  }

  lemma Title8WordsAvoidReact2To6()
    ensures WordsAvoid(TITLE_8, "react", 2, 6)
  {
    assert !FoldedFrom(TITLE_8[2], "react", 0);
    assert !FoldedFrom(TITLE_8[3], "react", 0);
    assert !FoldedFrom(TITLE_8[4], "react", 0);
    assert !FoldedFrom(TITLE_8[5], "react", 0);
  }

  lemma Title8WordsAvoidReact6To8()
    ensures WordsAvoid(TITLE_8, "react", 6, 8)
  {
    assert !FoldedFrom(TITLE_8[6], "react", 0);
    assert !FoldedFrom(TITLE_8[7], "react", 0);
  }

  lemma Description8WordsAvoidReact0To3()
    ensures WordsAvoid(DESCRIPTION_8, "react", 0, 3)
  {
    assert !FoldedFrom(DESCRIPTION_8[0], "react", 4);
    assert !FoldedFrom(DESCRIPTION_8[0], "react", 0);
    assert !FoldedFrom(DESCRIPTION_8[1], "react", 0);
    assert !FoldedFrom(DESCRIPTION_8[2], "react", 0);
  }

  lemma Description8WordsAvoidReact3To6()
    ensures WordsAvoid(DESCRIPTION_8, "react", 3, 6)
  {
    assert !FoldedFrom(DESCRIPTION_8[3], "react", 0);
    assert !FoldedFrom(DESCRIPTION_8[4], "react", 0);
    assert !FoldedFrom(DESCRIPTION_8[5], "react", 0);
  }

  lemma Description8WordsAvoidReact6To9()
    ensures WordsAvoid(DESCRIPTION_8, "react", 6, 9)
  {
    assert !FoldedFrom(DESCRIPTION_8[6], "react", 0);
    assert !FoldedFrom(DESCRIPTION_8[7], "react", 8);
    assert !FoldedFrom(DESCRIPTION_8[7], "react", 4);
    assert !FoldedFrom(DESCRIPTION_8[7], "react", 0);
    assert !FoldedFrom(DESCRIPTION_8[8], "react", 0);
  }

  lemma Description8WordsAvoidReact9To12()
    ensures WordsAvoid(DESCRIPTION_8, "react", 9, 12)
  {
    assert !FoldedFrom(DESCRIPTION_8[9], "react", 0);
    assert !FoldedFrom(DESCRIPTION_8[10], "react", 0);
    assert !FoldedFrom(DESCRIPTION_8[11], "react", 0);
  }

  lemma Description8WordsAvoidReact12To13()
    ensures WordsAvoid(DESCRIPTION_8, "react", 12, 13)
  {
    assert !FoldedFrom(DESCRIPTION_8[12], "react", 0);
  }

  // Each text other than course 2's.

  lemma Title1AvoidsReact()
    ensures !IncludesIgnoringCase(Concat(TITLE_1), "react")
  {
    Title1WordsAvoidReact0To3();
    TextAvoids(TITLE_1, "react");
  }

  lemma Description1AvoidsReact()
    ensures !IncludesIgnoringCase(Concat(DESCRIPTION_1), "react")
  {
    Description1WordsAvoidReact0To3();
    Description1WordsAvoidReact3To6();
    Description1WordsAvoidReact6To10();
    Description1WordsAvoidReact10To14();
    Description1WordsAvoidReact14To15();
    TextAvoids(DESCRIPTION_1, "react");
  }

  lemma Title3AvoidsReact()
    ensures !IncludesIgnoringCase(Concat(TITLE_3), "react")
  {
    Title3WordsAvoidReact0To2();
    TextAvoids(TITLE_3, "react");
  }

  lemma Description3AvoidsReact()
    ensures !IncludesIgnoringCase(Concat(DESCRIPTION_3), "react")
  {
    Description3WordsAvoidReact0To4();
    Description3WordsAvoidReact4To7();
    Description3WordsAvoidReact7To10();
    Description3WordsAvoidReact10To13();
    TextAvoids(DESCRIPTION_3, "react");
  }

  lemma Title4AvoidsReact()
    ensures !IncludesIgnoringCase(Concat(TITLE_4), "react")
  {
    Title4WordsAvoidReact0To2();
    TextAvoids(TITLE_4, "react");
  }

  lemma Description4AvoidsReact()
    ensures !IncludesIgnoringCase(Concat(DESCRIPTION_4), "react")
  {
    Description4WordsAvoidReact0To4();
    Description4WordsAvoidReact4To8();
    Description4WordsAvoidReact8To10();
    Description4WordsAvoidReact10To14();
    TextAvoids(DESCRIPTION_4, "react");
  }

  lemma Title5AvoidsReact()
    ensures !IncludesIgnoringCase(Concat(TITLE_5), "react")
  {
    Title5WordsAvoidReact0To4();
    Title5WordsAvoidReact4To7();
    TextAvoids(TITLE_5, "react");
  }

  lemma Description5AvoidsReact()
    ensures !IncludesIgnoringCase(Concat(DESCRIPTION_5), "react")
  {
    Description5WordsAvoidReact0To3();
    Description5WordsAvoidReact3To7();
    Description5WordsAvoidReact7To10();
    Description5WordsAvoidReact10To11();
    TextAvoids(DESCRIPTION_5, "react");
  }

  lemma Title6AvoidsReact()
    ensures !IncludesIgnoringCase(Concat(TITLE_6), "react")
  {
    Title6WordsAvoidReact0To3();
    TextAvoids(TITLE_6, "react");
  }

  lemma Description6AvoidsReact()
    ensures !IncludesIgnoringCase(Concat(DESCRIPTION_6), "react")
  {
    Description6WordsAvoidReact0To4();
    Description6WordsAvoidReact4To8();
    Description6WordsAvoidReact8To12();
    Description6WordsAvoidReact12To14();
    TextAvoids(DESCRIPTION_6, "react");
  }

  lemma Title7AvoidsReact()
    ensures !IncludesIgnoringCase(Concat(TITLE_7), "react")
  {
    Title7WordsAvoidReact0To4();
    TextAvoids(TITLE_7, "react");
  }

  lemma Description7AvoidsReact()
    ensures !IncludesIgnoringCase(Concat(DESCRIPTION_7), "react")
  {
    Description7WordsAvoidReact0To3();
    Description7WordsAvoidReact3To5();
    Description7WordsAvoidReact5To8();
    Description7WordsAvoidReact8To12();
    Description7WordsAvoidReact12To13();
    TextAvoids(DESCRIPTION_7, "react");
  }

  lemma Title8AvoidsReact()
    ensures !IncludesIgnoringCase(Concat(TITLE_8), "react")
  {
    Title8WordsAvoidReact0To2();
    Title8WordsAvoidReact2To6();
    Title8WordsAvoidReact6To8();
    TextAvoids(TITLE_8, "react");
  }

  lemma Description8AvoidsReact()
    ensures !IncludesIgnoringCase(Concat(DESCRIPTION_8), "react")
  {
    Description8WordsAvoidReact0To3();
    Description8WordsAvoidReact3To6();
    Description8WordsAvoidReact6To9();
    Description8WordsAvoidReact9To12();
    Description8WordsAvoidReact12To13();
    TextAvoids(DESCRIPTION_8, "react");
  }

  lemma Course1AvoidsReact()
    ensures !MatchesSearch(COURSES[0], "react")
  {
    Title1AvoidsReact();
    Description1AvoidsReact();
    Course1Texts();
    CourseAvoids(COURSES[0], Concat(TITLE_1), Concat(DESCRIPTION_1), "react");
  }

  lemma Course3AvoidsReact()
    ensures !MatchesSearch(COURSES[2], "react")
  {
    Title3AvoidsReact();
    Description3AvoidsReact();
    Course3Texts();
    CourseAvoids(COURSES[2], Concat(TITLE_3), Concat(DESCRIPTION_3), "react");
  }

  lemma Course4AvoidsReact()
    ensures !MatchesSearch(COURSES[3], "react")
  {
    Title4AvoidsReact();
    Description4AvoidsReact();
    Course4Texts();
    CourseAvoids(COURSES[3], Concat(TITLE_4), Concat(DESCRIPTION_4), "react");
  }

  lemma Course5AvoidsReact()
    ensures !MatchesSearch(COURSES[4], "react")
  {
    Title5AvoidsReact();
    Description5AvoidsReact();
    Course5Texts();
    CourseAvoids(COURSES[4], Concat(TITLE_5), Concat(DESCRIPTION_5), "react");
  }

  lemma Course6AvoidsReact()
    ensures !MatchesSearch(COURSES[5], "react")
  {
    Title6AvoidsReact();
    Description6AvoidsReact();
    Course6Texts();
    CourseAvoids(COURSES[5], Concat(TITLE_6), Concat(DESCRIPTION_6), "react");
  }

  lemma Course7AvoidsReact()
    ensures !MatchesSearch(COURSES[6], "react")
  {
    Title7AvoidsReact();
    Description7AvoidsReact();
    Course7Texts();
    CourseAvoids(COURSES[6], Concat(TITLE_7), Concat(DESCRIPTION_7), "react");
  }

  lemma Course8AvoidsReact()
    ensures !MatchesSearch(COURSES[7], "react")
  {
    Title8AvoidsReact();
    Description8AvoidsReact();
    Course8Texts();
    CourseAvoids(COURSES[7], Concat(TITLE_8), Concat(DESCRIPTION_8), "react");
  }

  /** The title of course 2, "Frontend with React", contains "react" ignoring case. */
  lemma Course2HasReact()
    ensures MatchesSearch(COURSES[1], "react")
  {
    TextHas(TITLE_2, "react", 2);
    Course2Texts();
  }

  /** "react" occurs, ignoring case, in the texts of course 2 and of no other course. */
  lemma ReactOnlyInCourse2()
    ensures MatchesSearch(COURSES[1], "react")
    ensures !MatchesSearch(COURSES[0], "react") && !MatchesSearch(COURSES[2], "react")
    ensures !MatchesSearch(COURSES[3], "react") && !MatchesSearch(COURSES[4], "react")
    ensures !MatchesSearch(COURSES[5], "react") && !MatchesSearch(COURSES[6], "react")
    ensures !MatchesSearch(COURSES[7], "react")
  {
    Course2HasReact();
    Course1AvoidsReact();
    Course3AvoidsReact();
    Course4AvoidsReact();
    Course5AvoidsReact();
    Course6AvoidsReact();
    Course7AvoidsReact();
    Course8AvoidsReact();
  }

  /** Searching "react" with every level shown finds course 2, "Frontend with React", alone. */
  lemma ReactFindsCourse2()
    ensures Filter(COURSES, "react", All) == [COURSES[1]]
    ensures COURSES[1].id == "2"
  {
    ReactOnlyInCourse2();
    SecondOfEightAlone(COURSES, "react", All);
  }

  /** Searching "react" among the beginner courses finds nothing. */
  lemma ReactFindsNoBeginnerCourse()
    ensures Filter(COURSES, "react", Only(Beginner)) == []
  {
    CatalogLevels();
    Course3AvoidsReact();
    Course4AvoidsReact();
    NoneOfEightShown(COURSES, "react", Only(Beginner));
  }

  /** Upper-case "REACT" finds the same course. */
  lemma UpperCaseReactFindsCourse2()
    ensures Filter(COURSES, "REACT", All) == [COURSES[1]]
  {
    FilterIgnoresLetterCase(COURSES, "REACT", "react", All);
    ReactFindsCourse2();
  }

  // ----------------------------------------------------------------------------------------
  // The empty search text with one level selected

  /** The empty search text matches every catalog entry. */
  lemma EmptySearchMatchesCatalog()
    ensures MatchesSearch(COURSES[0], "") && MatchesSearch(COURSES[1], "")
    ensures MatchesSearch(COURSES[2], "") && MatchesSearch(COURSES[3], "")
    ensures MatchesSearch(COURSES[4], "") && MatchesSearch(COURSES[5], "")
    ensures MatchesSearch(COURSES[6], "") && MatchesSearch(COURSES[7], "")
  {
    EmptySearchMatches(COURSES[0]);
    EmptySearchMatches(COURSES[1]);
    EmptySearchMatches(COURSES[2]);
    EmptySearchMatches(COURSES[3]);
    EmptySearchMatches(COURSES[4]);
    EmptySearchMatches(COURSES[5]);
    EmptySearchMatches(COURSES[6]);
    EmptySearchMatches(COURSES[7]);
  }

  /** The advanced courses: course 1, "DevOps with Docker", alone. */
  lemma AdvancedIsCourse1()
    ensures Filter(COURSES, "", Only(Advanced)) == [COURSES[0]]
    ensures COURSES[0].id == "1"
  {
    CatalogLevels();
    EmptySearchMatchesCatalog();
    FirstOfEightAlone(COURSES, "", Only(Advanced));
  }

  /** The beginner courses: courses 3 and 4, in that order. */
  lemma BeginnerIsCourses3And4()
    ensures Filter(COURSES, "", Only(Beginner)) == [COURSES[2], COURSES[3]]
    ensures COURSES[2].id == "3" && COURSES[3].id == "4"
  {
    CatalogLevels();
    EmptySearchMatchesCatalog();
    ThirdAndFourthOfEight(COURSES, "", Only(Beginner));
  }
}
