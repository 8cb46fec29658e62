/**
 * The projections from an upstream JSON body to the tool's result: which
 * fields are read, which are required, what stands in for a missing one, and
 * the JSON object the successful result carries.
 */
module Projection {
  import opened Wrappers
  import opened Text
  import opened JsonData
  import opened Language
  import opened Answers
  import opened Messages

  /** The call-to-action link used when the upstream body has none. */
  const DefaultCtaUrl: string := "https://turtlenoir.com"

  /** The free-text fields each tool asks the host to translate. */
  const StartTranslatedFields: seq<string> := ["title", "content"]
  const AskTranslatedFields: seq<string> := ["short_reason"]
  const GiveUpTranslatedFields: seq<string> := ["title", "solution", "cta_text"]

  /** The record a successful call returns, one shape per tool. */
  datatype Output =
    | Started(sessionId: string, puzzleId: Option<string>, title: string, content: string,
              language: SupportedLanguage, instruction: string, translationInstruction: string)
    | Answered(sessionId: string, language: SupportedLanguage, answerKey: AnswerKey, answer: string,
               answerOriginal: string, shortReason: Option<string>, solved: Option<bool>,
               progress: Option<real>, translationInstruction: string)
    | Revealed(sessionId: string, language: SupportedLanguage, puzzleTitle: Option<string>,
               solution: Option<string>, ctaUrl: string, ctaText: string, translationInstruction: string)

  /**
   * The `details` of an error result: none (rendered as null), the offending
   * upstream body, the names of the fields that failed validation, or the
   * endpoint and message of a failed call.
   */
  datatype Details =
    | NoDetails
    | Body(value: Json)
    | FieldErrors(fields: seq<string>)
    | CallFailed(endpoint: string, message: string)

  /** `textResult(payload)` or `errorResult(message, details)`. */
  datatype ToolResult = TextResult(output: Output) | ErrorResult(message: string, details: Details)

  /**
   * The start_session projection. A body that is not a record is a shape
   * error; a record without visible text in session_id, title and content
   * is a missing-fields error (`pickString` never yields an empty string, so
   * its falsy check is an absence check); otherwise the three are kept as
   * they are and puzzle_id is optional.
   */
  function ProjectStart(language: SupportedLanguage, body: Json): (r: ToolResult)
    ensures r.ErrorResult? <==>
      !IsRecord(body) || !HasText(body, "session_id") || !HasText(body, "title") || !HasText(body, "content")
    ensures r.ErrorResult? ==> r.details == Body(body)
    ensures r.ErrorResult? && !IsRecord(body) ==> r.message == "Invalid response shape from /start-session"
    ensures r.ErrorResult? && IsRecord(body) ==> r.message == "Missing required fields in /start-session response"
    ensures r.TextResult? ==> (r.output.Started?
      && Get(body, "session_id") == Some(Str(r.output.sessionId))
      && Get(body, "title") == Some(Str(r.output.title))
      && Get(body, "content") == Some(Str(r.output.content))
      && (r.output.puzzleId.Some? <==> HasText(body, "puzzle_id"))
      && (r.output.puzzleId.Some? ==> Get(body, "puzzle_id") == Some(Str(r.output.puzzleId.value)))
      && r.output.language == language
      && r.output.instruction == LocalizeStartInstruction(language)
      && r.output.translationInstruction == BuildTranslationInstruction(language, StartTranslatedFields))
  {
    if !IsRecord(body) then ErrorResult("Invalid response shape from /start-session", Body(body))
    else
      var sessionId := PickString(body, "session_id");
      var title := PickString(body, "title");
      var content := PickString(body, "content");
      if sessionId.None? || title.None? || content.None? then
        ErrorResult("Missing required fields in /start-session response", Body(body))
      else
        TextResult(Started(sessionId.value, PickString(body, "puzzle_id"), title.value, content.value,
          language, LocalizeStartInstruction(language),
          BuildTranslationInstruction(language, StartTranslatedFields)))
  }

  /**
   * The ask_question projection. The session id echoed back is the caller's,
   * not the upstream's; the verdict must have visible text, is canonicalised
   * and shown in the locale, and is also returned as received.
   */
  function ProjectAsk(sessionId: string, language: SupportedLanguage, body: Json): (r: ToolResult)
    ensures r.ErrorResult? <==> !IsRecord(body) || !HasText(body, "answer")
    ensures r.ErrorResult? ==> r.details == Body(body)
    ensures r.ErrorResult? && !IsRecord(body) ==> r.message == "Invalid response shape from /ask-question"
    ensures r.ErrorResult? && IsRecord(body) ==> r.message == "Missing required field 'answer' in /ask-question response"
    ensures r.TextResult? ==> (r.output.Answered?
      && r.output.sessionId == sessionId && r.output.language == language
      && Get(body, "answer") == Some(Str(r.output.answerOriginal))
      && r.output.answerKey == ToAnswerKey(r.output.answerOriginal)
      && r.output.answer == LocalizeAnswer(r.output.answerKey, language)
      && (r.output.shortReason.Some? <==> HasText(body, "short_reason"))
      && (r.output.shortReason.Some? ==> Get(body, "short_reason") == Some(Str(r.output.shortReason.value)))
      && (r.output.solved.Some? <==> Get(body, "solved").Some? && Get(body, "solved").value.Bool?)
      && (r.output.solved.Some? ==> Get(body, "solved") == Some(Bool(r.output.solved.value)))
      && (r.output.progress.Some? <==>
            Get(body, "progress").Some? && Get(body, "progress").value.Num? && Get(body, "progress").value.n.Finite?)
      && (r.output.progress.Some? ==> Get(body, "progress") == Some(Num(Finite(r.output.progress.value))))
      && r.output.translationInstruction == BuildTranslationInstruction(language, AskTranslatedFields))
  {
    if !IsRecord(body) then ErrorResult("Invalid response shape from /ask-question", Body(body))
    else
      match PickString(body, "answer")
      case None => ErrorResult("Missing required field 'answer' in /ask-question response", Body(body))
      case Some(answerRaw) =>
        var answerKey := ToAnswerKey(answerRaw);
        TextResult(Answered(sessionId, language, answerKey, LocalizeAnswer(answerKey, language), answerRaw,
          PickString(body, "short_reason"), PickBoolean(body, "solved"), PickNumber(body, "progress"),
          BuildTranslationInstruction(language, AskTranslatedFields)))
  }

  /**
   * The give_up_and_reveal projection. Any record succeeds: every field is
   * optional, the solution falls back to full_story, the link to the site.
   */
  function ProjectGiveUp(sessionId: string, language: SupportedLanguage, body: Json): (r: ToolResult)
    ensures r.ErrorResult? <==> !IsRecord(body)
    ensures r.ErrorResult? ==> r == ErrorResult("Invalid response shape from /give-up", Body(body))
    ensures r.TextResult? ==> (r.output.Revealed?
      && r.output.sessionId == sessionId && r.output.language == language
      && (r.output.puzzleTitle.Some? <==> HasText(body, "title"))
      && (r.output.puzzleTitle.Some? ==> Get(body, "title") == Some(Str(r.output.puzzleTitle.value)))
      && (r.output.solution.Some? <==> HasText(body, "solution") || HasText(body, "full_story"))
      && (HasText(body, "solution") ==> Get(body, "solution") == Some(Str(r.output.solution.value)))
      && (!HasText(body, "solution") && HasText(body, "full_story") ==>
            Get(body, "full_story") == Some(Str(r.output.solution.value)))
      && (HasText(body, "cta_url") ==> Get(body, "cta_url") == Some(Str(r.output.ctaUrl)))
      && (!HasText(body, "cta_url") ==> r.output.ctaUrl == DefaultCtaUrl)
      && r.output.ctaText == LocalizeCtaText(language)
      && r.output.translationInstruction == BuildTranslationInstruction(language, GiveUpTranslatedFields))
  {
    if !IsRecord(body) then ErrorResult("Invalid response shape from /give-up", Body(body))
    else
      var solution := match PickString(body, "solution")
        case Some(s) => Some(s)
        case None => PickString(body, "full_story");
      TextResult(Revealed(sessionId, language, PickString(body, "title"), solution,
        PickString(body, "cta_url").GetOr(DefaultCtaUrl), LocalizeCtaText(language),
        BuildTranslationInstruction(language, GiveUpTranslatedFields)))
  }

  /** `x ?? null` for an optional string. */
  function NullableString(o: Option<string>): (v: Json)
    ensures v == Null <==> o.None?
  {
    match o
    case Some(s) => Str(s)
    case None => Null
  }

  /**
   * The start_session object: seven keys, each carrying its field of the
   * output; an absent puzzle id is written as null rather than left out.
   */
  function RenderStarted(o: Output): (fields: map<string, Json>)
    requires o.Started?
    ensures fields.Keys ==
      {"session_id", "puzzle_id", "title", "content", "language", "instruction", "translation_instruction"}
    ensures fields["session_id"] == Str(o.sessionId) && fields["puzzle_id"] == NullableString(o.puzzleId)
      && fields["title"] == Str(o.title) && fields["content"] == Str(o.content)
      && fields["language"] == Str(Tag(o.language)) && fields["instruction"] == Str(o.instruction)
      && fields["translation_instruction"] == Str(o.translationInstruction)
  {
    map["session_id" := Str(o.sessionId), "puzzle_id" := NullableString(o.puzzleId), "title" := Str(o.title),
        "content" := Str(o.content), "language" := Str(Tag(o.language)), "instruction" := Str(o.instruction),
        "translation_instruction" := Str(o.translationInstruction)]
  }

  /**
   * The ask_question object: nine keys; the key is reported by its name,
   * and absent reason, solved flag and progress are written as null.
   */
  function RenderAnswered(o: Output): (fields: map<string, Json>)
    requires o.Answered?
    ensures fields.Keys ==
      {"session_id", "language", "answer_key", "answer", "answer_original", "short_reason", "solved",
       "progress", "translation_instruction"}
    ensures fields["session_id"] == Str(o.sessionId) && fields["language"] == Str(Tag(o.language))
      && fields["answer_key"] == Str(KeyTag(o.answerKey)) && fields["answer"] == Str(o.answer)
      && fields["answer_original"] == Str(o.answerOriginal) && fields["short_reason"] == NullableString(o.shortReason)
      && fields["translation_instruction"] == Str(o.translationInstruction)
    ensures fields["solved"] == Null <==> o.solved.None?
    ensures o.solved.Some? ==> fields["solved"] == Bool(o.solved.value)
    ensures fields["progress"] == Null <==> o.progress.None?
    ensures o.progress.Some? ==> fields["progress"] == Num(Finite(o.progress.value))
  {
    map["session_id" := Str(o.sessionId), "language" := Str(Tag(o.language)),
        "answer_key" := Str(KeyTag(o.answerKey)), "answer" := Str(o.answer),
        "answer_original" := Str(o.answerOriginal), "short_reason" := NullableString(o.shortReason),
        "solved" := (if o.solved.Some? then Bool(o.solved.value) else Null),
        "progress" := (if o.progress.Some? then Num(Finite(o.progress.value)) else Null),
        "translation_instruction" := Str(o.translationInstruction)]
  }

  /**
   * The give_up_and_reveal object: seven keys; absent title and solution
   * are written as null, the link and the invitation are always present.
   */
  function RenderRevealed(o: Output): (fields: map<string, Json>)
    requires o.Revealed?
    ensures fields.Keys ==
      {"session_id", "language", "title", "solution", "cta_url", "cta_text", "translation_instruction"}
    ensures fields["session_id"] == Str(o.sessionId) && fields["language"] == Str(Tag(o.language))
      && fields["title"] == NullableString(o.puzzleTitle) && fields["solution"] == NullableString(o.solution)
      && fields["cta_url"] == Str(o.ctaUrl) && fields["cta_text"] == Str(o.ctaText)
      && fields["translation_instruction"] == Str(o.translationInstruction)
  {
    map["session_id" := Str(o.sessionId), "language" := Str(Tag(o.language)),
        "title" := NullableString(o.puzzleTitle), "solution" := NullableString(o.solution),
        "cta_url" := Str(o.ctaUrl), "cta_text" := Str(o.ctaText),
        "translation_instruction" := Str(o.translationInstruction)]
  }

  /**
   * The object a successful result serialises, one fixed key set per tool;
   * every shape reports the session, the locale tag and the translation
   * instruction.
   */
  function Render(o: Output): (fields: map<string, Json>)
    ensures "session_id" in fields && fields["session_id"] == Str(o.sessionId)
    ensures "language" in fields && fields["language"] == Str(Tag(o.language))
    ensures "translation_instruction" in fields && fields["translation_instruction"] == Str(o.translationInstruction)
  {
    match o
    case Started(_, _, _, _, _, _, _) => RenderStarted(o)
    case Answered(_, _, _, _, _, _, _, _, _) => RenderAnswered(o)
    case Revealed(_, _, _, _, _, _, _) => RenderRevealed(o)
  }

  /** In zh-CN and en-US the label shown classifies back to the key reported beside it. */
  lemma AnsweredLabelClassifiesBack(sessionId: string, language: SupportedLanguage, body: Json)
    requires language != JaJP
    requires ProjectAsk(sessionId, language, body).TextResult?
    ensures var o := ProjectAsk(sessionId, language, body).output;
      ToAnswerKey(o.answer) == o.answerKey
  {
    var o := ProjectAsk(sessionId, language, body).output;
    LabelRoundTrip(o.answerKey, language);
  }

  /** A verdict padded with whitespace gets the key of the unpadded verdict and is echoed padded. */
  lemma AnsweredKeyIgnoresPadding(sessionId: string, language: SupportedLanguage, fields: map<string, Json>, raw: string)
    requires !IsBlank(raw)
    ensures var r := ProjectAsk(sessionId, language, Obj(fields["answer" := Str(raw)]));
      r.TextResult? && r.output.answerKey == ToAnswerKey(Trim(raw)) && r.output.answerOriginal == raw
  {
    ToAnswerKeyIgnoresPadding(raw);
  }

  /** The start result's translation instruction names title, content and the locale. */
  lemma StartedNamesTranslatedFields(language: SupportedLanguage, body: Json)
    requires IsRecord(body) && HasText(body, "session_id") && HasText(body, "title") && HasText(body, "content")
    ensures var t := ProjectStart(language, body).output.translationInstruction;
      Contains(t, "title") && Contains(t, "content") && Contains(t, Tag(language))
  {
    assert StartTranslatedFields[0] == "title" && StartTranslatedFields[1] == "content";
  }

  /** The reveal result's translation instruction names title, solution and cta_text. */
  lemma RevealedNamesTranslatedFields(sessionId: string, language: SupportedLanguage, body: Json)
    requires ProjectGiveUp(sessionId, language, body).TextResult?
    ensures var t := ProjectGiveUp(sessionId, language, body).output.translationInstruction;
      Contains(t, "title") && Contains(t, "solution") && Contains(t, "cta_text")
  {
    assert GiveUpTranslatedFields[0] == "title" && GiveUpTranslatedFields[1] == "solution";
    assert GiveUpTranslatedFields[2] == "cta_text";
  }

  /**
   * An array passes the record check and has none of the fields read, so
   * giving up on it succeeds with every default.
   */
  lemma GiveUpOnArrayUsesDefaults(sessionId: string, language: SupportedLanguage, items: seq<Json>)
    ensures ProjectGiveUp(sessionId, language, Arr(items)) == TextResult(Revealed(sessionId, language, None, None,
      DefaultCtaUrl, LocalizeCtaText(language), BuildTranslationInstruction(language, GiveUpTranslatedFields)))
  {
  }

  /** An array body at start_session is reported as missing fields, not as a shape error. */
  lemma StartOnArrayIsMissingFields(language: SupportedLanguage, items: seq<Json>)
    ensures ProjectStart(language, Arr(items))
      == ErrorResult("Missing required fields in /start-session response", Body(Arr(items)))
  {
  }

  /** A whitespace-only solution gives way to full_story. */
  lemma BlankSolutionFallsBackToFullStory(sessionId: string, language: SupportedLanguage,
                                          fields: map<string, Json>, blank: string, story: string)
    requires IsBlank(blank) && !IsBlank(story)
    ensures var body := Obj(fields["solution" := Str(blank)]["full_story" := Str(story)]);
      ProjectGiveUp(sessionId, language, body).output.solution == Some(story)
  {
  }
}
