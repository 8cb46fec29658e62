/**
 * The localised texts attached to every successful result: the start
 * instruction, the call-to-action line, and the instruction telling the host
 * which free-text fields to translate before display.
 */
module Messages {
  import opened Text
  import opened Language
  import opened Answers

  /**
   * `localizeStartInstruction`: how to continue the session, listing the
   * four labels `localizeAnswer` shows in the same locale. Each literal is
   * written split at its labels.
   */
  function LocalizeStartInstruction(language: SupportedLanguage): (text: string)
    ensures forall key :: Contains(text, LocalizeAnswer(key, language))
  {
    if language == EnUS then
      var head := "Use ask_question with the same session_id. Host answers in 4 classes: ";
      ListContainsItems(head, "Yes", "No", "Both", "Irrelevant", " / ", ".");
      head + "Yes" + " / " + "No" + " / " + "Both" + " / " + "Irrelevant" + "."
    else if language == JaJP then
      var head := "同じ session_id で ask_question を呼び出してください。回答は 4 種類です: ";
      ListContainsItems(head, "はい", "いいえ", "はい/いいえ", "無関係", " / ", "。");
      head + "はい" + " / " + "いいえ" + " / " + "はい/いいえ" + " / " + "無関係" + "。"
    else
      var head := "请使用相同 session_id 调用 ask_question。主持人仅返回四类答案：";
      ListContainsItems(head, "是", "不是", "是也不是", "没有关系", " / ", "。");
      head + "是" + " / " + "不是" + " / " + "是也不是" + " / " + "没有关系" + "。"
  }

  /** `localizeCtaText`: the invitation to play on the site, which every locale names. */
  function LocalizeCtaText(language: SupportedLanguage): (text: string)
    ensures Contains(text, "turtlenoir.com")
  {
    if language == EnUS then
      var head := "For a stricter host, visual clues, and multiplayer mode, play at ";
      EndsWithSite(head);
      head + "turtlenoir.com"
    else if language == JaJP then
      var head := "より厳密なホスト、ビジュアル手がかり、マルチプレイは ";
      ContainsMiddle(head, "turtlenoir.com", " で。");
      head + "turtlenoir.com" + " で。"
    else
      var head := "想体验更严格主持人、视觉线索和多人模式，请访问 ";
      EndsWithSite(head);
      head + "turtlenoir.com"
  }

  /**
   * `buildTranslationInstruction`: ask the host to translate `fields` into
   * the locale; the text names every field and the locale's tag.
   */
  function BuildTranslationInstruction(language: SupportedLanguage, fields: seq<string>): (text: string)
    ensures forall i :: 0 <= i < |fields| ==> Contains(text, fields[i])
    ensures Contains(text, Tag(language))
  {
    if language == EnUS then
      var opening, before, after := "Translate free-text fields (", ") to ", " before replying to the user.";
      TemplateNamesFieldsAndTag(fields, ", ", opening, before, "en-US", after);
      opening + Join(fields, ", ") + (before + "en-US" + after)
    else if language == JaJP then
      var opening, before, after := "ユーザーに返信する前に、自由文フィールド（", "）を ", " に翻訳してください。";
      TemplateNamesFieldsAndTag(fields, "、", opening, before, "ja-JP", after);
      opening + Join(fields, "、") + (before + "ja-JP" + after)
    else
      var opening, before, after := "请在回复用户前，将自由文本字段（", "）翻译为 ", "。";
      TemplateNamesFieldsAndTag(fields, "、", opening, before, "zh-CN", after);
      opening + Join(fields, "、") + (before + "zh-CN" + after)
  }

  /** A template of opening, joined fields and a closing around a tag names every field and the tag. */
  lemma TemplateNamesFieldsAndTag(fields: seq<string>, sep: string, opening: string, before: string, tag: string, after: string)
    ensures forall i :: 0 <= i < |fields| ==>
      Contains(opening + Join(fields, sep) + (before + tag + after), fields[i])
    ensures Contains(opening + Join(fields, sep) + (before + tag + after), tag)
  {
    var closing := before + tag + after;
    forall i | 0 <= i < |fields|
      ensures Contains(opening + Join(fields, sep) + closing, fields[i])
    {
      JoinContainsParts(fields, sep, i);
      ContainsInfix(opening, Join(fields, sep), closing, fields[i]);
    }
    ContainsMiddle(before, tag, after);
    ContainsPrepend(opening + Join(fields, sep), closing, tag);
  }

  /** A text listing four labels between separators contains each of them. */
  lemma ListContainsItems(head: string, l1: string, l2: string, l3: string, l4: string, sep: string, tail: string)
    ensures var text := head + l1 + sep + l2 + sep + l3 + sep + l4 + tail;
      Contains(text, l1) && Contains(text, l2) && Contains(text, l3) && Contains(text, l4)
  {
    var text := head + l1 + sep + l2 + sep + l3 + sep + l4 + tail;
    assert text == head + l1 + (sep + l2 + sep + l3 + sep + l4 + tail);
    ContainsMiddle(head, l1, sep + l2 + sep + l3 + sep + l4 + tail);
    assert text == (head + l1 + sep) + l2 + (sep + l3 + sep + l4 + tail);
    ContainsMiddle(head + l1 + sep, l2, sep + l3 + sep + l4 + tail);
    assert text == (head + l1 + sep + l2 + sep) + l3 + (sep + l4 + tail);
    ContainsMiddle(head + l1 + sep + l2 + sep, l3, sep + l4 + tail);
    ContainsMiddle(head + l1 + sep + l2 + sep + l3 + sep, l4, tail);
  }

  /** A text ending in the site name names the site. */
  lemma EndsWithSite(head: string)
    ensures Contains(head + "turtlenoir.com", "turtlenoir.com")
  {
    assert StartsWith("turtlenoir.com", "turtlenoir.com");
    ContainsPrepend(head, "turtlenoir.com", "turtlenoir.com");
  }
}
