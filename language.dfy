/** The language normaliser: any language hint becomes one of three supported locales. */
module Language {
  import opened Wrappers
  import opened Text
  import opened JsonData

  datatype SupportedLanguage = ZhCN | EnUS | JaJP

  /** The locale tag the adapter reports and forwards upstream. */
  function Tag(language: SupportedLanguage): string {
    match language
    case ZhCN => "zh-CN"
    case EnUS => "en-US"
    case JaJP => "ja-JP"
  }

  /** The hint with surrounding whitespace removed and ASCII letters lower-cased. */
  function Canonical(raw: string): string {
    Lower(Trim(raw))
  }

  /**
   * `normalizeLanguage`: `raw` is any value, None standing for `undefined`.
   * A non-string is zh-CN; a string is canonicalised and matched by prefix,
   * "en" first, then "ja" or "jp"; everything else, "zh" included, is zh-CN.
   */
  function NormalizeLanguage(raw: Option<Json>): (r: SupportedLanguage)
    ensures r == EnUS <==> raw.Some? && raw.value.Str? && StartsWith(Canonical(raw.value.s), "en")
    ensures r == JaJP <==>
      raw.Some? && raw.value.Str? && !StartsWith(Canonical(raw.value.s), "en")
      && (StartsWith(Canonical(raw.value.s), "ja") || StartsWith(Canonical(raw.value.s), "jp"))
  {
    match raw
    case Some(Str(s)) =>
      var normalized := Canonical(s);
      if StartsWith(normalized, "en") then EnUS
      else if StartsWith(normalized, "ja") || StartsWith(normalized, "jp") then JaJP
      else if StartsWith(normalized, "zh") then ZhCN
      else ZhCN
    case _ => ZhCN
  }

  /** Canonicalising a canonical hint changes nothing. */
  lemma {:induction false} CanonicalIdempotent(raw: string)
    ensures Canonical(Canonical(raw)) == Canonical(raw)
  {
    var t := Trim(raw);
    TrimLowerCommute(t);
    TrimIdempotent(raw);
    LowerIdempotent(t);
  }

  /** Padding and ASCII case of a hint never change the locale it selects. */
  lemma NormalizeIgnoresPaddingAndCase(raw: string)
    ensures NormalizeLanguage(Some(Str(raw))) == NormalizeLanguage(Some(Str(Canonical(raw))))
  {
    CanonicalIdempotent(raw);
  }

  /** A tag has no surrounding whitespace. */
  lemma TagIsUnpadded(language: SupportedLanguage)
    ensures Trim(Tag(language)) == Tag(language)
  {
    TrimmedIsFixed(Tag(language));
  }

  /** Every reported tag normalises back to its own locale, so the three tags are distinct. */
  lemma NormalizeTag(language: SupportedLanguage)
    ensures NormalizeLanguage(Some(Str(Tag(language)))) == language
  {
    var t := Tag(language);
    var prefix := match language case ZhCN => "zh" case EnUS => "en" case JaJP => "ja";
    assert |t| == 5 && t[0..2] == prefix;
    TagIsUnpadded(language);
    LowerSlice(t, 0, 2);
    LowerOfLowercase(prefix);
  }

  /** Anything that is not a string, `undefined` included, is zh-CN. */
  lemma NonStringIsChinese(raw: Option<Json>)
    requires raw.None? || !raw.value.Str?
    ensures NormalizeLanguage(raw) == ZhCN
  {
  }

  /** Canonicalising a hint that carries no padding is lower-casing it. */
  lemma CanonicalOfUnpadded(raw: string, lowered: string)
    requires raw != [] ==> !IsWhitespace(raw[0]) && !IsWhitespace(raw[|raw| - 1])
    requires Lower(raw) == lowered
    ensures Canonical(raw) == lowered
  {
    TrimmedIsFixed(raw);
  }

  lemma PaddedEnglishCanonical()
    ensures Canonical(" EN-gb") == "en-gb"
  {
    assert LeadingWhitespace(" EN-gb") == 1;
    assert TrimStart(" EN-gb") == "EN-gb";
    TrimmedIsFixed("EN-gb");
    assert Lower("EN-gb") == "en-gb";
  }

  /** " EN-gb" is en-US: padding is dropped and case ignored. */
  lemma NormalizePaddedEnglish()
    ensures NormalizeLanguage(Some(Str(" EN-gb"))) == EnUS
  {
    PaddedEnglishCanonical();
    assert StartsWith("en-gb", "en");
  }

  /** "JP" is ja-JP. */
  lemma NormalizeJapaneseAlias()
    ensures NormalizeLanguage(Some(Str("JP"))) == JaJP
  {
    CanonicalOfUnpadded("JP", "jp");
    assert StartsWith("jp", "jp");
  }

  lemma TraditionalChineseCanonical()
    ensures Canonical("zh-TW") == "zh-tw"
  {
    CanonicalOfUnpadded("zh-TW", "zh-tw");
  }

  /** "zh-TW" is zh-CN through the explicit "zh" branch. */
  lemma NormalizeTraditionalChinese()
    ensures NormalizeLanguage(Some(Str("zh-TW"))) == ZhCN
  {
    TraditionalChineseCanonical();
    assert !StartsWith("zh-tw", "en");
  }

  /** "fr" is zh-CN through the fallback. */
  lemma NormalizeUnsupportedIsChinese()
    ensures NormalizeLanguage(Some(Str("fr"))) == ZhCN
  {
    CanonicalOfUnpadded("fr", "fr");
  }
}
