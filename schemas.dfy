/**
 * The three input schemas and what validating an argument bag against them
 * yields: the typed arguments, or the list of fields that failed.
 */
module Schemas {
  import opened Wrappers
  import opened Text
  import opened JsonData

  /** What a field's value must be: a string of bounded UTF-16 length, or one of fixed strings. */
  datatype Kind = StringOf(minLength: nat, maxLength: Option<nat>) | OneOf(choices: seq<string>)

  datatype FieldSpec = FieldSpec(key: string, required: bool, kind: Kind)

  predicate Admits(kind: Kind, v: Json) {
    v.Str? &&
    match kind
    case StringOf(lo, hi) => lo <= Utf16Length(v.s) && (hi.None? || Utf16Length(v.s) <= hi.value)
    case OneOf(choices) => v.s in choices
  }

  /** A field passes when its value is admitted, or when it is absent and optional. */
  predicate FieldOk(field: FieldSpec, args: map<string, Json>) {
    if field.key in args then Admits(field.kind, args[field.key]) else !field.required
  }

  /** The keys of the failing fields, in schema order (the field errors of `flatten()`). */
  function Rejections(schema: seq<FieldSpec>, args: map<string, Json>): (bad: seq<string>)
    ensures |bad| <= |schema|
    ensures bad == [] <==> forall i :: 0 <= i < |schema| ==> FieldOk(schema[i], args)
    ensures forall k :: k in bad <==>
      exists i :: 0 <= i < |schema| && schema[i].key == k && !FieldOk(schema[i], args)
  {
    if schema == [] then []
    else
      var rest := Rejections(schema[1..], args);
      assert forall i :: 1 <= i < |schema| ==> schema[i] == schema[1..][i - 1];
      if FieldOk(schema[0], args) then rest else [schema[0].key] + rest
  }

  /** Every schema passes exactly when nothing is rejected. */
  predicate Accepts(schema: seq<FieldSpec>, args: map<string, Json>) {
    forall i :: 0 <= i < |schema| ==> FieldOk(schema[i], args)
  }

  const DifficultyLevels: seq<string> := ["简单", "中等", "困难"]

  const LanguageField := FieldSpec("language", false, StringOf(2, Some(16)))

  const StartSessionSchema: seq<FieldSpec> := [
    FieldSpec("region", false, StringOf(2, Some(8))),
    FieldSpec("difficulty", false, OneOf(DifficultyLevels)),
    FieldSpec("keyword", false, StringOf(1, Some(100))),
    LanguageField
  ]

  const SessionIdField := FieldSpec("session_id", true, StringOf(1, None))

  const AskQuestionSchema: seq<FieldSpec> := [
    SessionIdField,
    FieldSpec("question", true, StringOf(1, None)),
    LanguageField
  ]

  const GiveUpSchema: seq<FieldSpec> := [SessionIdField, LanguageField]

  datatype Validated<T> = Parsed(value: T) | Rejected(fields: seq<string>)

  datatype StartSessionArgs = StartSessionArgs(
    region: Option<string>, difficulty: Option<string>, keyword: Option<string>, language: Option<string>)

  datatype AskQuestionArgs = AskQuestionArgs(sessionId: string, question: string, language: Option<string>)

  datatype GiveUpArgs = GiveUpArgs(sessionId: string, language: Option<string>)

  /** The string under `key`, if there is one. */
  function StringArg(args: map<string, Json>, key: string): Option<string> {
    if key in args && args[key].Str? then Some(args[key].s) else None
  }

  /** `opt` is what the bag holds under `key`: that string, or nothing at all. */
  predicate Carries(args: map<string, Json>, key: string, opt: Option<string>) {
    (opt.Some? ==> key in args && args[key] == Str(opt.value)) && (opt.None? ==> key !in args)
  }

  /** The string fits the UTF-16 length bounds. */
  predicate LengthWithin(opt: Option<string>, lo: nat, hi: nat) {
    opt.Some? ==> lo <= Utf16Length(opt.value) <= hi
  }

  /** Validation against the start_session schema. */
  function ParseStartSession(args: map<string, Json>): (r: Validated<StartSessionArgs>)
    ensures r.Parsed? <==> Accepts(StartSessionSchema, args)
    ensures r.Rejected? ==> r.fields == Rejections(StartSessionSchema, args) && r.fields != []
    ensures r.Parsed? ==>
      && Carries(args, "region", r.value.region) && LengthWithin(r.value.region, 2, 8)
      && Carries(args, "difficulty", r.value.difficulty)
      && (r.value.difficulty.Some? ==> r.value.difficulty.value in DifficultyLevels)
      && Carries(args, "keyword", r.value.keyword) && LengthWithin(r.value.keyword, 1, 100)
      && Carries(args, "language", r.value.language) && LengthWithin(r.value.language, 2, 16)
  {
    var bad := Rejections(StartSessionSchema, args);
    if bad != [] then Rejected(bad)
    else
      assert FieldOk(StartSessionSchema[0], args) && FieldOk(StartSessionSchema[1], args);
      assert FieldOk(StartSessionSchema[2], args) && FieldOk(StartSessionSchema[3], args);
      Parsed(StartSessionArgs(
        StringArg(args, "region"), StringArg(args, "difficulty"),
        StringArg(args, "keyword"), StringArg(args, "language")))
  }

  /** Validation against the ask_question schema. */
  function ParseAskQuestion(args: map<string, Json>): (r: Validated<AskQuestionArgs>)
    ensures r.Parsed? <==> Accepts(AskQuestionSchema, args)
    ensures r.Rejected? ==> r.fields == Rejections(AskQuestionSchema, args) && r.fields != []
    ensures r.Parsed? ==>
      && Carries(args, "session_id", Some(r.value.sessionId)) && r.value.sessionId != []
      && Carries(args, "question", Some(r.value.question)) && r.value.question != []
      && Carries(args, "language", r.value.language) && LengthWithin(r.value.language, 2, 16)
  {
    var bad := Rejections(AskQuestionSchema, args);
    if bad != [] then Rejected(bad)
    else
      assert FieldOk(AskQuestionSchema[0], args) && FieldOk(AskQuestionSchema[1], args);
      assert FieldOk(AskQuestionSchema[2], args);
      Parsed(AskQuestionArgs(args["session_id"].s, args["question"].s, StringArg(args, "language")))
  }

  /** Validation against the give_up_and_reveal schema. */
  function ParseGiveUp(args: map<string, Json>): (r: Validated<GiveUpArgs>)
    ensures r.Parsed? <==> Accepts(GiveUpSchema, args)
    ensures r.Rejected? ==> r.fields == Rejections(GiveUpSchema, args) && r.fields != []
    ensures r.Parsed? ==>
      && Carries(args, "session_id", Some(r.value.sessionId)) && r.value.sessionId != []
      && Carries(args, "language", r.value.language) && LengthWithin(r.value.language, 2, 16)
  {
    var bad := Rejections(GiveUpSchema, args);
    if bad != [] then Rejected(bad)
    else
      assert FieldOk(GiveUpSchema[0], args) && FieldOk(GiveUpSchema[1], args);
      Parsed(GiveUpArgs(args["session_id"].s, StringArg(args, "language")))
  }

  /** An empty or missing question is a field error on `question`. */
  lemma EmptyQuestionRejected(args: map<string, Json>)
    requires "question" !in args || args["question"] == Str("")
    ensures ParseAskQuestion(args).Rejected? && "question" in ParseAskQuestion(args).fields
  {
    assert !FieldOk(AskQuestionSchema[1], args);
  }

  /** An empty or missing session id is a field error on `session_id`, for both tools that need one. */
  lemma EmptySessionIdRejected(args: map<string, Json>)
    requires "session_id" !in args || args["session_id"] == Str("")
    ensures ParseAskQuestion(args).Rejected? && "session_id" in ParseAskQuestion(args).fields
    ensures ParseGiveUp(args).Rejected? && "session_id" in ParseGiveUp(args).fields
  {
    assert !FieldOk(AskQuestionSchema[0], args);
    assert !FieldOk(GiveUpSchema[0], args);
  }

  /** A language hint shorter than 2 or longer than 16 UTF-16 units fails every schema. */
  lemma LanguageOutOfBoundsRejected(args: map<string, Json>)
    requires "language" in args && args["language"].Str?
    requires !(2 <= Utf16Length(args["language"].s) <= 16)
    ensures ParseStartSession(args).Rejected? && "language" in ParseStartSession(args).fields
    ensures ParseAskQuestion(args).Rejected? && "language" in ParseAskQuestion(args).fields
    ensures ParseGiveUp(args).Rejected? && "language" in ParseGiveUp(args).fields
  {
    assert !FieldOk(StartSessionSchema[3], args);
    assert !FieldOk(AskQuestionSchema[2], args);
    assert !FieldOk(GiveUpSchema[1], args);
  }

  /** A non-string language hint (null included) fails too: optional means absent, not null. */
  lemma NonStringLanguageRejected(args: map<string, Json>)
    requires "language" in args && !args["language"].Str?
    ensures ParseGiveUp(args).Rejected? && "language" in ParseGiveUp(args).fields
  {
    assert !FieldOk(GiveUpSchema[1], args);
  }

  /** An empty bag is a valid start_session request with every option absent. */
  lemma EmptyBagStartsSession()
    ensures ParseStartSession(map[]) == Parsed(StartSessionArgs(None, None, None, None))
  {
    var args: map<string, Json> := map[];
    assert forall i :: 0 <= i < |StartSessionSchema| ==> FieldOk(StartSessionSchema[i], args);
  }
}
