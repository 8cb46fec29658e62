/**
 * The answer canonicaliser: the upstream judge's free-text verdict becomes
 * one of four canonical keys, and each key has a display label per locale.
 */
module Answers {
  import opened Text
  import opened Language

  datatype AnswerKey = Yes | No | Both | Irrelevant

  /** The key's name in the output record: a non-empty lower-case ASCII word. */
  function KeyTag(key: AnswerKey): (tag: string)
    ensures tag != [] && forall i :: 0 <= i < |tag| ==> 'a' <= tag[i] <= 'z'
  {
    match key
    case Yes => "yes"
    case No => "no"
    case Both => "both"
    case Irrelevant => "irrelevant"
  }

  // The exact tier, on the trimmed verdict: CJK literals compared as they
  // are, Latin tokens compared after ASCII lower-casing.

  predicate ExactYes(value: string) {
    value == "是" || Lower(value) == "yes"
  }

  predicate ExactNo(value: string) {
    value == "不是" || Lower(value) == "no"
  }

  predicate ExactBoth(value: string) {
    value == "是也不是" || Lower(value) == "both" || Lower(value) == "yes and no"
  }

  predicate ExactIrrelevant(value: string) {
    value == "没有关系" || Lower(value) == "irrelevant"
  }

  /** The first fallback: the lower-cased verdict mentions both "yes" and "no". */
  predicate MentionsYesAndNo(value: string) {
    Contains(Lower(value), "yes") && Contains(Lower(value), "no")
  }

  /** The second fallback: the verdict mentions the Chinese "both" phrase. */
  predicate MentionsChineseBoth(value: string) {
    Contains(value, "是也不是")
  }

  /**
   * `toAnswerKey`: exact matches first, in the order yes, no, both,
   * irrelevant; then the two fallbacks that give both; everything else is
   * irrelevant. Yes and no come from an exact match only.
   */
  function ToAnswerKey(raw: string): (r: AnswerKey)
    ensures r == Yes <==> ExactYes(Trim(raw))
    ensures r == No <==> ExactNo(Trim(raw))
  {
    var value := Trim(raw);
    var lower := Lower(value);
    if value == "是" || lower == "yes" then Yes
    else if value == "不是" || lower == "no" then No
    else if value == "是也不是" || lower == "both" || lower == "yes and no" then Both
    else if value == "没有关系" || lower == "irrelevant" then Irrelevant
    else if Contains(lower, "yes") && Contains(lower, "no") then Both
    else if Contains(value, "是也不是") then Both
    else Irrelevant
  }

  /** Surrounding whitespace never changes the key. */
  lemma ToAnswerKeyIgnoresPadding(raw: string)
    ensures ToAnswerKey(Trim(raw)) == ToAnswerKey(raw)
  {
    TrimIdempotent(raw);
  }

  /** The exact tier reads the same verdict before and after ASCII lower-casing. */
  lemma ExactTierIgnoresAsciiCase(value: string)
    ensures ExactYes(Lower(value)) == ExactYes(value)
    ensures ExactNo(Lower(value)) == ExactNo(value)
    ensures ExactBoth(Lower(value)) == ExactBoth(value)
    ensures ExactIrrelevant(Lower(value)) == ExactIrrelevant(value)
  {
    LowerIdempotent(value);
    LowerEqualsCaseless(value, "是");
    LowerEqualsCaseless(value, "不是");
    LowerEqualsCaseless(value, "是也不是");
    LowerEqualsCaseless(value, "没有关系");
  }

  /** ASCII case never changes the key: the CJK literals are caseless. */
  lemma {:induction false} ToAnswerKeyIgnoresAsciiCase(raw: string)
    ensures ToAnswerKey(Lower(raw)) == ToAnswerKey(raw)
  {
    var value := Trim(raw);
    TrimLowerCommute(raw);
    LowerIdempotent(value);
    ExactTierIgnoresAsciiCase(value);
    ContainsCaselessUnderLower(value, "是也不是");
    BothCharacterisation(raw);
    BothCharacterisation(Lower(raw));
  }

  /** No exact-tier literal other than the both-literals mentions "yes" and "no" together. */
  lemma {:induction false} ExactYesNoIrrelevantMentionNotBoth(value: string)
    requires ExactYes(value) || ExactNo(value) || ExactIrrelevant(value)
    ensures !MentionsYesAndNo(value)
  {
    if value == "是" || value == "不是" || value == "没有关系" {
      LowerEqualsCaseless(value, value);
      NotContainsWithoutFirst(value, "yes");
    } else if Lower(value) == "yes" {
      NotContainsWithoutFirst("yes", "no");
    } else {
      NotContainsWithoutFirst(Lower(value), "yes");
    }
  }

  /** No exact-tier literal other than the both-literals mentions the Chinese "both" phrase. */
  lemma {:induction false} ExactYesNoIrrelevantMentionNoChineseBoth(value: string)
    requires ExactYes(value) || ExactNo(value) || ExactIrrelevant(value)
    ensures !MentionsChineseBoth(value)
  {
    ContainsCaselessUnderLower(value, "是也不是");
    if value == "是" || value == "不是" {
      NotContainsLonger(value, "是也不是");
    } else if value == "没有关系" {
      NotContainsWithoutFirst(value, "是也不是");
    } else {
      NotContainsWithoutFirst(Lower(value), "是也不是");
    }
  }

  /**
   * The key is both exactly when the trimmed verdict is a both-literal, or
   * mentions "yes" and "no", or mentions the Chinese both phrase: no exact
   * match can shadow a fallback.
   */
  lemma BothCharacterisation(raw: string)
    ensures ToAnswerKey(raw) == Both <==>
      ExactBoth(Trim(raw)) || MentionsYesAndNo(Trim(raw)) || MentionsChineseBoth(Trim(raw))
  {
    var value := Trim(raw);
    if ExactYes(value) || ExactNo(value) || ExactIrrelevant(value) {
      ExactYesNoIrrelevantMentionNotBoth(value);
      ExactYesNoIrrelevantMentionNoChineseBoth(value);
    }
  }

  /** "yes and no" in any case, and any text mentioning both words, is both. */
  lemma YesAndNoIsBoth(raw: string)
    requires MentionsYesAndNo(Trim(raw))
    ensures ToAnswerKey(raw) == Both
  {
    BothCharacterisation(raw);
  }

  /** Irrelevant is the catch-all: anything neither exact nor caught by a fallback. */
  lemma UnrecognisedIsIrrelevant(raw: string)
    requires !ExactYes(Trim(raw)) && !ExactNo(Trim(raw)) && !ExactBoth(Trim(raw))
    requires !MentionsYesAndNo(Trim(raw)) && !MentionsChineseBoth(Trim(raw))
    ensures ToAnswerKey(raw) == Irrelevant
  {
    BothCharacterisation(raw);
  }

  /** `localizeAnswer`: the 4 x 3 display-label table. */
  function LocalizeAnswer(key: AnswerKey, language: SupportedLanguage): (shown: string)
    ensures shown != [] && !IsWhitespace(shown[0]) && !IsWhitespace(shown[|shown| - 1])
  {
    match language
    case ZhCN =>
      (match key
       case Yes => "是"
       case No => "不是"
       case Both => "是也不是"
       case Irrelevant => "没有关系")
    case EnUS =>
      (match key
       case Yes => "Yes"
       case No => "No"
       case Both => "Both"
       case Irrelevant => "Irrelevant")
    case JaJP =>
      (match key
       case Yes => "はい"
       case No => "いいえ"
       case Both => "はい/いいえ"
       case Irrelevant => "無関係")
  }

  /** Within one locale, distinct keys have distinct labels. */
  lemma LocalizeAnswerInjective(k1: AnswerKey, k2: AnswerKey, language: SupportedLanguage)
    requires LocalizeAnswer(k1, language) == LocalizeAnswer(k2, language)
    ensures k1 == k2
  {
  }

  lemma {:induction false} ChineseLabelRoundTrip(key: AnswerKey)
    ensures ToAnswerKey(LocalizeAnswer(key, ZhCN)) == key
  {
    var shown := LocalizeAnswer(key, ZhCN);
    TrimmedIsFixed(shown);
    LowerEqualsCaseless(shown, shown);
    if key == Irrelevant {
      ExactYesNoIrrelevantMentionNotBoth(shown);
      ExactYesNoIrrelevantMentionNoChineseBoth(shown);
    }
  }

  lemma {:induction false} EnglishLabelRoundTrip(key: AnswerKey)
    ensures ToAnswerKey(LocalizeAnswer(key, EnUS)) == key
  {
    var shown := LocalizeAnswer(key, EnUS);
    TrimmedIsFixed(shown);
    match key
    case Yes => assert Lower(shown) == "yes";
    case No => assert Lower(shown) == "no";
    case Both => assert Lower(shown) == "both";
    case Irrelevant => assert Lower(shown) == "irrelevant";
  }

  /** A key's name is its English label lower-cased. */
  lemma KeyTagIsLowerEnglishLabel(key: AnswerKey)
    ensures KeyTag(key) == Lower(LocalizeAnswer(key, EnUS))
  {
    match key
    case Yes => assert Lower("Yes") == "yes";
    case No => assert Lower("No") == "no";
    case Both => assert Lower("Both") == "both";
    case Irrelevant => assert Lower("Irrelevant") == "irrelevant";
  }

  /** A key's name classifies back to the key, so distinct keys have distinct names. */
  lemma KeyTagClassifiesBack(key: AnswerKey)
    ensures ToAnswerKey(KeyTag(key)) == key
  {
    EnglishLabelRoundTrip(key);
    ToAnswerKeyIgnoresAsciiCase(LocalizeAnswer(key, EnUS));
    KeyTagIsLowerEnglishLabel(key);
  }

  /** The zh-CN and en-US labels classify back to their own key. */
  lemma LabelRoundTrip(key: AnswerKey, language: SupportedLanguage)
    requires language != JaJP
    ensures ToAnswerKey(LocalizeAnswer(key, language)) == key
  {
    if language == ZhCN {
      ChineseLabelRoundTrip(key);
    } else {
      EnglishLabelRoundTrip(key);
    }
  }

  /** A caseless verdict without padding, such as a CJK label, is matched as written. */
  lemma CaselessUnpadded(value: string)
    requires Caseless(value)
    requires value != [] ==> !IsWhitespace(value[0]) && !IsWhitespace(value[|value| - 1])
    ensures Trim(value) == value && Lower(value) == value
  {
    TrimmedIsFixed(value);
    LowerEqualsCaseless(value, value);
  }

  /** A caseless verdict without "是" that is none of the exact literals is irrelevant. */
  lemma CaselessUnknownIsIrrelevant(value: string)
    requires Caseless(value) && value != []
    requires !IsWhitespace(value[0]) && !IsWhitespace(value[|value| - 1])
    requires '是' !in value
    ensures ToAnswerKey(value) == Irrelevant
  {
    CaselessUnpadded(value);
    NotContainsWithoutFirst(value, "yes");
    NotContainsWithoutFirst(value, "是也不是");
    assert value != "yes" && value != "no" && value != "both" && value != "yes and no" && value != "irrelevant";
    UnrecognisedIsIrrelevant(value);
  }

  /** Every ja-JP label falls through to irrelevant: the round trip fails there. */
  lemma JapaneseLabelsAreIrrelevant(key: AnswerKey)
    ensures ToAnswerKey(LocalizeAnswer(key, JaJP)) == Irrelevant
  {
    CaselessUnknownIsIrrelevant(LocalizeAnswer(key, JaJP));
  }

  /** "Yes" and "是" are yes. */
  lemma ClassifyYesExamples()
    ensures ToAnswerKey("Yes") == Yes
    ensures ToAnswerKey("是") == Yes
  {
    EnglishLabelRoundTrip(Yes);
    ChineseLabelRoundTrip(Yes);
  }

  lemma YesAndNoUnpadded()
    ensures Trim("yes and no") == "yes and no"
  {
    TrimmedIsFixed("yes and no");
  }

  lemma YesAndNoLowercase()
    ensures Lower("yes and no") == "yes and no"
  {
    LowerOfLowercase("yes and no");
  }

  /** "yes and no" is both through the exact tier. */
  lemma ClassifyYesAndNo()
    ensures ToAnswerKey("yes and no") == Both
  {
    YesAndNoUnpadded();
    YesAndNoLowercase();
    BothCharacterisation("yes and no");
  }

  /** "不知道" (I don't know) is irrelevant through the catch-all. */
  lemma ClassifyUnknown()
    ensures ToAnswerKey("不知道") == Irrelevant
  {
    CaselessUnknownIsIrrelevant("不知道");
  }

  lemma MixedVerdictUnpadded()
    ensures Trim("No, yes I mean no") == "No, yes I mean no"
  {
    TrimmedIsFixed("No, yes I mean no");
  }

  lemma MixedVerdictMentionsYesAndNo()
    ensures MentionsYesAndNo(Trim("No, yes I mean no"))
  {
    var raw := "No, yes I mean no";
    MixedVerdictUnpadded();
    var lower := Lower(raw);
    assert raw[4..7] == "yes" && raw[15..17] == "no";
    LowerSlice(raw, 4, 7);
    LowerSlice(raw, 15, 17);
    LowerOfLowercase("yes");
    LowerOfLowercase("no");
    ContainsAt(lower, "yes", 4);
    ContainsAt(lower, "no", 15);
  }

  /** The heuristic flagged as lossy: a mixed verdict mentioning both words is both. */
  lemma MixedVerdictIsBoth()
    ensures ToAnswerKey("No, yes I mean no") == Both
  {
    MixedVerdictMentionsYesAndNo();
    YesAndNoIsBoth("No, yes I mean no");
  }
}
