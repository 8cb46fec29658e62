/**
 * The tool-call handler: the tool name selects a schema, the arguments are
 * validated, the language normalised, one upstream call made, and its
 * outcome projected. The HTTP round trip is not modelled; its outcome, a
 * parsed body or an error message, is a parameter.
 */
module Handler {
  import opened Wrappers
  import opened Text
  import opened JsonData
  import opened Language
  import opened Answers
  import opened Messages
  import opened Schemas
  import opened Projection

  datatype Tool = StartSession | AskQuestion | GiveUpAndReveal

  /** The name under which the tool is listed and called. */
  function ToolName(tool: Tool): string {
    match tool
    case StartSession => "start_session"
    case AskQuestion => "ask_question"
    case GiveUpAndReveal => "give_up_and_reveal"
  }

  /** The tool a name selects, if any; names are matched exactly. */
  function ToolByName(name: string): (r: Option<Tool>)
    ensures r.Some? ==> ToolName(r.value) == name
    ensures forall tool :: ToolName(tool) == name ==> r == Some(tool)
  {
    if name == "start_session" then Some(StartSession)
    else if name == "ask_question" then Some(AskQuestion)
    else if name == "give_up_and_reveal" then Some(GiveUpAndReveal)
    else None
  }

  /** The upstream endpoint each tool posts to, relative to the base URL. */
  function Endpoint(tool: Tool): string {
    match tool
    case StartSession => "/start-session"
    case AskQuestion => "/ask-question"
    case GiveUpAndReveal => "/give-up"
  }

  /** The headline of the error reported when the upstream call fails. */
  function FailureHeadline(tool: Tool): string {
    match tool
    case StartSession => "Failed to start session"
    case AskQuestion => "Failed to judge question"
    case GiveUpAndReveal => "Failed to reveal solution"
  }

  function InputSchema(tool: Tool): seq<FieldSpec> {
    match tool
    case StartSession => StartSessionSchema
    case AskQuestion => AskQuestionSchema
    case GiveUpAndReveal => GiveUpSchema
  }

  /** The request the adapter sends: an endpoint and a JSON object. */
  datatype Outbound = Outbound(path: string, payload: map<string, Json>)

  /**
   * What the call yields: the parsed body (null for an empty one), or the
   * message of the error it threw (HTTP status, non-JSON body, timeout,
   * network failure).
   */
  datatype Upstream = Replied(body: Json) | Failed(message: string)

  /** The request made, if any, and the result returned to the host. */
  datatype Response = Response(call: Option<Outbound>, result: ToolResult)

  /** An optional validated string as the language hint: absent is `undefined`. */
  function Hint(language: Option<string>): (raw: Option<Json>)
    ensures raw.Some? <==> language.Some?
    ensures raw.Some? ==> raw.value == Str(language.value)
  {
    match language
    case Some(s) => Some(Str(s))
    case None => None
  }

  /** JavaScript truthiness of an optional string: present and non-empty. */
  predicate Truthy(option: Option<string>) {
    option.Some? && option.value != []
  }

  /** The key is in the payload exactly when the option is truthy, holding its string. */
  predicate Forwards(payload: map<string, Json>, key: string, option: Option<string>) {
    (key in payload <==> Truthy(option)) && (key in payload ==> payload[key] == Str(option.value))
  }

  /** The start_session request body: the locale, and each truthy option. */
  function StartPayload(input: StartSessionArgs, language: SupportedLanguage): (payload: map<string, Json>)
    ensures payload.Keys <= {"language", "region", "difficulty", "keyword"}
    ensures "language" in payload && payload["language"] == Str(Tag(language))
    ensures Forwards(payload, "region", input.region)
    ensures Forwards(payload, "difficulty", input.difficulty)
    ensures Forwards(payload, "keyword", input.keyword)
  {
    var withLanguage := map["language" := Str(Tag(language))];
    var withRegion := if Truthy(input.region) then withLanguage["region" := Str(input.region.value)] else withLanguage;
    var withDifficulty :=
      if Truthy(input.difficulty) then withRegion["difficulty" := Str(input.difficulty.value)] else withRegion;
    if Truthy(input.keyword) then withDifficulty["keyword" := Str(input.keyword.value)] else withDifficulty
  }

  /** The payload built step by step, as the handler builds it. */
  method BuildStartPayload(input: StartSessionArgs, language: SupportedLanguage) returns (payload: map<string, Json>)
    ensures payload == StartPayload(input, language)
  {
    payload := map["language" := Str(Tag(language))];
    if input.region.Some? && input.region.value != [] {
      payload := payload["region" := Str(input.region.value)];
    }
    if input.difficulty.Some? && input.difficulty.value != [] {
      payload := payload["difficulty" := Str(input.difficulty.value)];
    }
    if input.keyword.Some? && input.keyword.value != [] {
      payload := payload["keyword" := Str(input.keyword.value)];
    }
  }

  /** The request body for ask_question: the session, the question as given, and the locale. */
  function AskPayload(input: AskQuestionArgs, language: SupportedLanguage): (payload: map<string, Json>)
    ensures payload.Keys == {"session_id", "question", "language"}
    ensures payload["session_id"] == Str(input.sessionId) && payload["question"] == Str(input.question)
    ensures payload["language"] == Str(Tag(language))
  {
    map["session_id" := Str(input.sessionId), "question" := Str(input.question), "language" := Str(Tag(language))]
  }

  /** The request body for give_up_and_reveal: the session and the locale. */
  function GiveUpPayload(input: GiveUpArgs, language: SupportedLanguage): (payload: map<string, Json>)
    ensures payload.Keys == {"session_id", "language"}
    ensures payload["session_id"] == Str(input.sessionId) && payload["language"] == Str(Tag(language))
  {
    map["session_id" := Str(input.sessionId), "language" := Str(Tag(language))]
  }

  /** The error a failed call turns into: the tool's headline, the full endpoint and the message. */
  function CallFailure(baseUrl: string, tool: Tool, message: string): (r: ToolResult)
    ensures r.ErrorResult? && r.message == FailureHeadline(tool)
    ensures r.details.CallFailed? && r.details.endpoint == baseUrl + Endpoint(tool) && r.details.message == message
  {
    ErrorResult(FailureHeadline(tool), CallFailed(baseUrl + Endpoint(tool), message))
  }

  function InvalidArguments(tool: Tool, fields: seq<string>): ToolResult {
    ErrorResult("Invalid arguments for " + ToolName(tool), FieldErrors(fields))
  }

  /**
   * The start_session branch: rejected arguments make no call; accepted ones make
   * one call carrying the normalised locale, whose reply is projected and
   * whose failure is reported.
   */
  function HandleStartSession(baseUrl: string, args: map<string, Json>, upstream: Upstream): (r: Response)
    ensures ParseStartSession(args).Rejected? ==> r == Response(None, InvalidArguments(StartSession, ParseStartSession(args).fields))
    ensures ParseStartSession(args).Parsed? ==> (
      var input := ParseStartSession(args).value;
      var language := NormalizeLanguage(Hint(input.language));
      && r.call == Some(Outbound(Endpoint(StartSession), StartPayload(input, language)))
      && (upstream.Replied? ==> r.result == ProjectStart(language, upstream.body))
      && (upstream.Failed? ==> r.result == CallFailure(baseUrl, StartSession, upstream.message)))
  {
    match ParseStartSession(args)
    case Rejected(bad) => Response(None, InvalidArguments(StartSession, bad))
    case Parsed(input) =>
      var language := NormalizeLanguage(Hint(input.language));
      Response(Some(Outbound(Endpoint(StartSession), StartPayload(input, language))),
        match upstream
        case Failed(message) => CallFailure(baseUrl, StartSession, message)
        case Replied(body) => ProjectStart(language, body))
  }

  /**
   * The ask_question branch: rejected arguments make no call; accepted ones make
   * one call carrying the normalised locale, whose reply is projected and
   * whose failure is reported.
   */
  function HandleAskQuestion(baseUrl: string, args: map<string, Json>, upstream: Upstream): (r: Response)
    ensures ParseAskQuestion(args).Rejected? ==> r == Response(None, InvalidArguments(AskQuestion, ParseAskQuestion(args).fields))
    ensures ParseAskQuestion(args).Parsed? ==> (
      var input := ParseAskQuestion(args).value;
      var language := NormalizeLanguage(Hint(input.language));
      && r.call == Some(Outbound(Endpoint(AskQuestion), AskPayload(input, language)))
      && (upstream.Replied? ==> r.result == ProjectAsk(input.sessionId, language, upstream.body))
      && (upstream.Failed? ==> r.result == CallFailure(baseUrl, AskQuestion, upstream.message)))
  {
    match ParseAskQuestion(args)
    case Rejected(bad) => Response(None, InvalidArguments(AskQuestion, bad))
    case Parsed(input) =>
      var language := NormalizeLanguage(Hint(input.language));
      Response(Some(Outbound(Endpoint(AskQuestion), AskPayload(input, language))),
        match upstream
        case Failed(message) => CallFailure(baseUrl, AskQuestion, message)
        case Replied(body) => ProjectAsk(input.sessionId, language, body))
  }

  /**
   * The give_up_and_reveal branch: rejected arguments make no call; accepted ones make
   * one call carrying the normalised locale, whose reply is projected and
   * whose failure is reported.
   */
  function HandleGiveUp(baseUrl: string, args: map<string, Json>, upstream: Upstream): (r: Response)
    ensures ParseGiveUp(args).Rejected? ==> r == Response(None, InvalidArguments(GiveUpAndReveal, ParseGiveUp(args).fields))
    ensures ParseGiveUp(args).Parsed? ==> (
      var input := ParseGiveUp(args).value;
      var language := NormalizeLanguage(Hint(input.language));
      && r.call == Some(Outbound(Endpoint(GiveUpAndReveal), GiveUpPayload(input, language)))
      && (upstream.Replied? ==> r.result == ProjectGiveUp(input.sessionId, language, upstream.body))
      && (upstream.Failed? ==> r.result == CallFailure(baseUrl, GiveUpAndReveal, upstream.message)))
  {
    match ParseGiveUp(args)
    case Rejected(bad) => Response(None, InvalidArguments(GiveUpAndReveal, bad))
    case Parsed(input) =>
      var language := NormalizeLanguage(Hint(input.language));
      Response(Some(Outbound(Endpoint(GiveUpAndReveal), GiveUpPayload(input, language))),
        match upstream
        case Failed(message) => CallFailure(baseUrl, GiveUpAndReveal, message)
        case Replied(body) => ProjectGiveUp(input.sessionId, language, body))
  }

  /**
   * The CallTool handler. Missing arguments are an empty bag. An unknown
   * name and arguments the schema rejects are answered without any call;
   * otherwise exactly one call is made to the tool's endpoint, and its
   * failure is reported with the endpoint and the message.
   */
  function Dispatch(baseUrl: string, name: string, arguments: Option<map<string, Json>>, upstream: Upstream): (r: Response)
    ensures ToolByName(name).None? ==> r == Response(None, ErrorResult("Tool not found: " + name, NoDetails))
    ensures ToolByName(name).Some? ==>
      var tool := ToolByName(name).value;
      var args := arguments.GetOr(map[]);
      && (r.call.Some? <==> Accepts(InputSchema(tool), args))
      && (r.call.None? ==> r.result == InvalidArguments(tool, Rejections(InputSchema(tool), args)))
      && (r.call.Some? ==> r.call.value.path == Endpoint(tool))
      && (r.call.Some? && upstream.Failed? ==> r.result == CallFailure(baseUrl, tool, upstream.message))
    ensures var args := arguments.GetOr(map[]);
      name == "start_session" && ParseStartSession(args).Parsed? ==> (
        var input := ParseStartSession(args).value;
        var language := NormalizeLanguage(Hint(input.language));
        && r.call == Some(Outbound(Endpoint(StartSession), StartPayload(input, language)))
        && (upstream.Replied? ==> r.result == ProjectStart(language, upstream.body)))
    ensures var args := arguments.GetOr(map[]);
      name == "ask_question" && ParseAskQuestion(args).Parsed? ==> (
        var input := ParseAskQuestion(args).value;
        var language := NormalizeLanguage(Hint(input.language));
        && r.call == Some(Outbound(Endpoint(AskQuestion), AskPayload(input, language)))
        && (upstream.Replied? ==> r.result == ProjectAsk(input.sessionId, language, upstream.body)))
    ensures var args := arguments.GetOr(map[]);
      name == "give_up_and_reveal" && ParseGiveUp(args).Parsed? ==> (
        var input := ParseGiveUp(args).value;
        var language := NormalizeLanguage(Hint(input.language));
        && r.call == Some(Outbound(Endpoint(GiveUpAndReveal), GiveUpPayload(input, language)))
        && (upstream.Replied? ==> r.result == ProjectGiveUp(input.sessionId, language, upstream.body)))
  {
    var args := arguments.GetOr(map[]);
    if name == "start_session" then HandleStartSession(baseUrl, args, upstream)
    else if name == "ask_question" then HandleAskQuestion(baseUrl, args, upstream)
    else if name == "give_up_and_reveal" then HandleGiveUp(baseUrl, args, upstream)
    else Response(None, ErrorResult("Tool not found: " + name, NoDetails))
  }

  /** A call that is never made cannot influence the result. */
  lemma NoCallNoInfluence(baseUrl: string, name: string, arguments: Option<map<string, Json>>, u1: Upstream, u2: Upstream)
    requires Dispatch(baseUrl, name, arguments, u1).call.None?
    ensures Dispatch(baseUrl, name, arguments, u2) == Dispatch(baseUrl, name, arguments, u1)
  {
  }

  /** The request does not depend on what the upstream answers. */
  lemma CallIndependentOfReply(baseUrl: string, name: string, arguments: Option<map<string, Json>>, u1: Upstream, u2: Upstream)
    ensures Dispatch(baseUrl, name, arguments, u1).call == Dispatch(baseUrl, name, arguments, u2).call
  {
  }

  /** Every call carries the normalised locale tag, derived from the language argument alone. */
  lemma CallCarriesLocale(baseUrl: string, name: string, arguments: Option<map<string, Json>>, upstream: Upstream)
    requires ToolByName(name).Some? && Accepts(InputSchema(ToolByName(name).value), arguments.GetOr(map[]))
    ensures var r := Dispatch(baseUrl, name, arguments, upstream);
      r.call.Some? && var payload := r.call.value.payload;
      var args := arguments.GetOr(map[]);
      "language" in payload
      && payload["language"] == Str(Tag(NormalizeLanguage(if "language" in args then Some(args["language"]) else None)))
  {
    var args := arguments.GetOr(map[]);
    if name == "start_session" {
      var input := ParseStartSession(args).value;
      assert Hint(input.language) == (if "language" in args then Some(args["language"]) else None);
    } else if name == "ask_question" {
      var input := ParseAskQuestion(args).value;
      assert Hint(input.language) == (if "language" in args then Some(args["language"]) else None);
    } else {
      var input := ParseGiveUp(args).value;
      assert Hint(input.language) == (if "language" in args then Some(args["language"]) else None);
    }
  }

  /** After validation every optional start_session field given is forwarded, and no other. */
  lemma ValidatedOptionsAreForwarded(args: map<string, Json>, language: SupportedLanguage)
    requires ParseStartSession(args).Parsed?
    ensures var payload := StartPayload(ParseStartSession(args).value, language);
      && ("region" in payload <==> "region" in args)
      && ("difficulty" in payload <==> "difficulty" in args)
      && ("keyword" in payload <==> "keyword" in args)
      && (forall k :: k in payload && k != "language" ==> k in args && payload[k] == args[k])
  {
    var input := ParseStartSession(args).value;
    if input.difficulty.Some? {
      assert input.difficulty.value in DifficultyLevels;
    }
  }

  /** The ask_question call forwards the session id and question unchanged. */
  lemma AskForwardsQuestion(baseUrl: string, arguments: Option<map<string, Json>>, upstream: Upstream)
    requires ParseAskQuestion(arguments.GetOr(map[])).Parsed?
    ensures var args := arguments.GetOr(map[]);
      var payload := Dispatch(baseUrl, "ask_question", arguments, upstream).call.value.payload;
      && payload.Keys == {"session_id", "question", "language"}
      && payload["session_id"] == args["session_id"] && payload["question"] == args["question"]
  {
  }

  /** Calling with no arguments at all is calling with an empty bag. */
  lemma MissingArgumentsAreEmpty(baseUrl: string, name: string, upstream: Upstream)
    ensures Dispatch(baseUrl, name, None, upstream) == Dispatch(baseUrl, name, Some(map[]), upstream)
  {
  }

  /** ask_question without arguments is rejected on session_id and question, with no call. */
  lemma AskWithoutArgumentsIsRejected(baseUrl: string, upstream: Upstream)
    ensures var r := Dispatch(baseUrl, "ask_question", None, upstream);
      r.call.None? && r.result.ErrorResult? && r.result.message == "Invalid arguments for " + "ask_question"
      && r.result.details.FieldErrors? && "session_id" in r.result.details.fields
      && "question" in r.result.details.fields
  {
    var args: map<string, Json> := map[];
    EmptyQuestionRejected(args);
    EmptySessionIdRejected(args);
    var bad := ParseAskQuestion(args).fields;
    assert Dispatch(baseUrl, "ask_question", None, upstream) == Response(None, InvalidArguments(AskQuestion, bad));
  }

  /** An unknown tool, for example "hint", is reported by name. */
  lemma UnknownToolIsNotFound(baseUrl: string, arguments: Option<map<string, Json>>, upstream: Upstream)
    ensures Dispatch(baseUrl, "hint", arguments, upstream).result
      == ErrorResult("Tool not found: hint", NoDetails)
  {
  }

  /** A reply naming a session, a title and a content, each starting visibly, and no puzzle id. */
  lemma StartReplyFields(sessionId: string, title: string, content: string)
    requires sessionId != [] && !IsWhitespace(sessionId[0])
    requires title != [] && !IsWhitespace(title[0])
    requires content != [] && !IsWhitespace(content[0])
    ensures var body := Obj(map["session_id" := Str(sessionId), "title" := Str(title), "content" := Str(content)]);
      PickString(body, "session_id") == Some(sessionId) && PickString(body, "title") == Some(title)
      && PickString(body, "content") == Some(content) && PickString(body, "puzzle_id") == None
  {
    var fields := map["session_id" := Str(sessionId), "title" := Str(title), "content" := Str(content)];
    VisibleFieldIsPicked(fields, "session_id", sessionId);
    VisibleFieldIsPicked(fields, "title", title);
    VisibleFieldIsPicked(fields, "content", content);
  }

  /** A reply with session_id, title and content and no puzzle_id starts a session without a puzzle id. */
  lemma StartReplyStarts(language: SupportedLanguage)
    ensures var body := Obj(map["session_id" := Str("s1"), "title" := Str("T"), "content" := Str("C")]);
      ProjectStart(language, body) == TextResult(Started("s1", None, "T", "C", language,
        LocalizeStartInstruction(language), BuildTranslationInstruction(language, StartTranslatedFields)))
  {
    StartReplyFields("s1", "T", "C");
  }

  /**
   * start_session with no arguments posts only the default locale and, on a
   * reply holding session_id, title and content, starts a zh-CN session
   * without a puzzle id.
   */
  lemma StartSessionEndToEnd(baseUrl: string)
    ensures var body := Obj(map["session_id" := Str("s1"), "title" := Str("T"), "content" := Str("C")]);
      Dispatch(baseUrl, "start_session", None, Replied(body)) == Response(
        Some(Outbound("/start-session", map["language" := Str("zh-CN")])),
        TextResult(Started("s1", None, "T", "C", ZhCN, LocalizeStartInstruction(ZhCN),
          BuildTranslationInstruction(ZhCN, StartTranslatedFields))))
  {
    var body := Obj(map["session_id" := Str("s1"), "title" := Str("T"), "content" := Str("C")]);
    var input := StartSessionArgs(None, None, None, None);
    EmptyBagStartsSession();
    StartReplyStarts(ZhCN);
    assert NormalizeLanguage(Hint(input.language)) == ZhCN;
    assert StartPayload(input, ZhCN) == map["language" := Str("zh-CN")];
    assert Dispatch(baseUrl, "start_session", None, Replied(body))
      == HandleStartSession(baseUrl, map[], Replied(body));
  }

  lemma EnglishHintParses()
    ensures var args := map["session_id" := Str("s1"), "question" := Str("Q"), "language" := Str("en")];
      ParseAskQuestion(args) == Parsed(AskQuestionArgs("s1", "Q", Some("en")))
  {
    var args := map["session_id" := Str("s1"), "question" := Str("Q"), "language" := Str("en")];
    assert Utf16Length("en") == 2 && Utf16Length("s1") == 2 && Utf16Length("Q") == 1;
    assert forall i :: 0 <= i < |AskQuestionSchema| ==> FieldOk(AskQuestionSchema[i], args);
  }

  lemma EnglishHintNormalizes()
    ensures NormalizeLanguage(Some(Str("en"))) == EnUS
  {
    CanonicalOfUnpadded("en", "en");
    assert StartsWith("en", "en");
  }

  /** An English-speaking player's question is forwarded with the en-US tag. */
  lemma AskQuestionEnglishCall(baseUrl: string, upstream: Upstream)
    ensures var args := map["session_id" := Str("s1"), "question" := Str("Q"), "language" := Str("en")];
      Dispatch(baseUrl, "ask_question", Some(args), upstream).call == Some(Outbound("/ask-question",
        map["session_id" := Str("s1"), "question" := Str("Q"), "language" := Str("en-US")]))
  {
    EnglishHintParses();
    EnglishHintNormalizes();
  }

  lemma ChineseYesShownInEnglish(sessionId: string)
    ensures var r := ProjectAsk(sessionId, EnUS, Obj(map["answer" := Str("是")]));
      && r.TextResult? && r.output.answerKey == Yes && r.output.answer == "Yes"
      && r.output.answerOriginal == "是" && r.output.shortReason.None?
  {
    ClassifyYesExamples();
    VisibleFieldIsPicked(map["answer" := Str("是")], "answer", "是");
  }

  /** A judge answering "是" to an English-speaking player is shown as "Yes" and echoed as "是". */
  lemma AskQuestionEnglishResult(baseUrl: string)
    ensures var args := map["session_id" := Str("s1"), "question" := Str("Q"), "language" := Str("en")];
      var r := Dispatch(baseUrl, "ask_question", Some(args), Replied(Obj(map["answer" := Str("是")])));
      && r.result.TextResult? && r.result.output.language == EnUS
      && r.result.output.answerKey == Yes && r.result.output.answer == "Yes"
      && r.result.output.answerOriginal == "是" && r.result.output.shortReason.None?
  {
    var args := map["session_id" := Str("s1"), "question" := Str("Q"), "language" := Str("en")];
    var body := Obj(map["answer" := Str("是")]);
    EnglishHintParses();
    EnglishHintNormalizes();
    ChineseYesShownInEnglish("s1");
    assert Dispatch(baseUrl, "ask_question", Some(args), Replied(body)).result == ProjectAsk("s1", EnUS, body);
  }
}
