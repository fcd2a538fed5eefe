/** The kanji classifier of cli/src/kanji.rs: which characters count as kanji, and the
    knowledge tier suggested by a card's review interval. */
module Kanji {
  import opened Types

  /** A row of the kanji knowledge table as handed to callers: the kanji as a string and its tier. */
  datatype KanjiEntry = KanjiEntry(kanji: string, level: u8)

  /** The seven inclusive code-point ranges of CJK unified ideographs that count as kanji:
      the main block, extension A, and extensions B to G. */
  const KanjiRanges: seq<(int, int)> := [
    (0x4E00, 0x9FFF),
    (0x3400, 0x4DBF),
    (0x2_0000, 0x2_A6DF),
    (0x2_A700, 0x2_B73F),
    (0x2_B740, 0x2_B81F),
    (0x2_B820, 0x2_CEAF),
    (0x2_CEB0, 0x2_EBEF)
  ]

  predicate InRange(cp: int, r: (int, int))
  {
    r.0 <= cp <= r.1
  }

  /** Whether `c` is a kanji: one match over the seven ranges. */
  predicate IsKanji(c: char)
    ensures IsKanji(c) ==> 0x3400 <= c as int <= 0x2_EBEF && !(0x2_A6E0 <= c as int <= 0x2_A6FF)
  {
    var cp := c as int;
    || 0x4E00 <= cp <= 0x9FFF
    || 0x3400 <= cp <= 0x4DBF
    || 0x2_0000 <= cp <= 0x2_A6DF
    || 0x2_A700 <= cp <= 0x2_B73F
    || 0x2_B740 <= cp <= 0x2_B81F
    || 0x2_B820 <= cp <= 0x2_CEAF
    || 0x2_CEB0 <= cp <= 0x2_EBEF
  }

  /** `IsKanji` agrees with membership in the table of ranges, in both directions. */
  lemma IsKanjiIffInSomeRange(c: char)
    ensures IsKanji(c) <==> exists i :: 0 <= i < |KanjiRanges| && InRange(c as int, KanjiRanges[i])
  {
    var cp := c as int;
    if IsKanji(c) {
      var i :=
        if cp <= 0x4DBF then 1
        else if cp <= 0x9FFF then 0
        else if cp <= 0x2_A6DF then 2
        else if cp <= 0x2_B73F then 3
        else if cp <= 0x2_B81F then 4
        else if cp <= 0x2_CEAF then 5
        else 6;
      assert InRange(cp, KanjiRanges[i]);
    }
  }

  /** The ranges are listed without overlap, so a kanji lies in exactly one of them. */
  lemma KanjiRangesDisjoint(i: int, j: int, cp: int)
    requires 0 <= i < |KanjiRanges| && 0 <= j < |KanjiRanges|
    requires InRange(cp, KanjiRanges[i]) && InRange(cp, KanjiRanges[j])
    ensures i == j
  {
  }

  /** The gap between extensions B and C, U+2A6E0 to U+2A6FF, holds no kanji; nor does anything
      below U+3400 (ASCII, kana) or above U+2EBEF. */
  lemma OutsideRangesNotKanji(c: char)
    requires
      || c as int < 0x3400
      || 0x4DC0 <= c as int < 0x4E00
      || 0x2_A6E0 <= c as int <= 0x2_A6FF
      || 0x2_EBEF < c as int
    ensures !IsKanji(c)
  {
  }

  /** The cases of the repository's own unit test. */
  lemma IsKanjiExamples()
    ensures IsKanji('千') && IsKanji('本') && IsKanji('桜')
    ensures !IsKanji('に') && !IsKanji('h') && !IsKanji('1')
  {
  }

  /** The tier suggested for a card whose review interval is `interval` days. */
  function RecommendedLevel(interval: u16): (r: u8)
    ensures r <= 3
    ensures r == 0 <==> interval == 0
    ensures r == 1 <==> 0 < interval < 60
    ensures r == 2 <==> 60 <= interval < 100
    ensures r == 3 <==> 100 <= interval
  {
    if interval >= 100 then 3
    else if interval >= 60 then 2
    else if interval > 0 then 1
    else 0
  }

  /** A longer interval never suggests a lower tier. */
  lemma RecommendedLevelMonotone(a: u16, b: u16)
    requires a <= b
    ensures RecommendedLevel(a) <= RecommendedLevel(b)
  {
  }

  /** The boundary values. */
  lemma RecommendedLevelBoundaries()
    ensures RecommendedLevel(0) == 0 && RecommendedLevel(1) == 1 && RecommendedLevel(59) == 1
    ensures RecommendedLevel(60) == 2 && RecommendedLevel(99) == 2 && RecommendedLevel(100) == 3
    ensures RecommendedLevel(0xFFFF) == 3
  {
  }
}
