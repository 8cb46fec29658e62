# Turtle Noir MCP adapter, modelled in Dafny

`mcp-turtle-noir` is a Model Context Protocol server that lets a chat host
play "turtle soup" lateral-thinking puzzles against the Turtle Noir web
service. It exposes three tools: `start_session`, `ask_question` and
`give_up_and_reveal`. Each call goes through the same steps:

1. Validate the arguments against the tool's schema.
2. Normalise the player's language hint to zh-CN, en-US or ja-JP.
3. Post one JSON request to the upstream service.
4. Read the reply defensively and return either a text result (a JSON
   record) or an error result.

The judge's free-text verdict is canonicalised to one of four answer keys
(yes, no, both, irrelevant) and shown with a label in the player's locale.

The model covers `src/index.ts` except the HTTP transport, the
configuration read from the environment, the tool listing and server
start-up, and the JSON text a result is serialised to (see "Left out"). It
has these modules:

- `Text`: the JavaScript string operations the adapter relies on: `trim`,
  ASCII `toLowerCase`, `startsWith`, `includes`, `join`, and UTF-16 length.
- `JsonData`: the untrusted JSON value plus `isRecord`, `pickString`,
  `pickBoolean` and `pickNumber`.
- `Language`: `normalizeLanguage`.
- `Answers`: `toAnswerKey` and `localizeAnswer`.
- `Messages`: the start instruction, the call-to-action text and the
  translation instruction.
- `Schemas`: the three zod input schemas and what `safeParse` yields.
- `Projection`: how each tool turns an upstream body into its result, and
  the JSON object a text result carries.
- `Handler`: the `CallTool` dispatcher and the step-by-step build of the
  start_session request body (`BuildStartPayload`).

The HTTP round trip (`postJson`) is not modelled. Its outcome is a
parameter: either a parsed body (null for an empty one) or the message of
the error it threw. The `Response` records the request the handler would
send, if any, so every property about requests and short-circuits is stated
over all possible upstream outcomes.

`isRecord` (src/index.ts:87-89) is `typeof value === "object" && value !==
null`, which accepts arrays as well as objects. An array from upstream
therefore passes the record check and has none of the fields read. On
give_up_and_reveal an array succeeds with every default
(`Projection.GiveUpOnArrayUsesDefaults`). On start_session an array is a
missing-fields error, not a shape error
(`Projection.StartOnArrayIsMissingFields`).

## Model

| member | source | states |
|---|---|---|
| Text.Trim | src/index.ts:93 | `trim` leaves no whitespace (ECMAScript WhiteSpace and LineTerminator) at either end, never lengthens, and is empty exactly when the input is all whitespace |
| Text.TrimIsInfix | src/index.ts:93 | `trim` removes only whitespace: its result is the infix of the input between a blank prefix and a blank suffix |
| Text.TrimIdempotent | src/index.ts:119 | trimming a trimmed string changes nothing |
| Text.Lower | src/index.ts:111 | `toLowerCase` keeps the length and maps each character on its own, leaving everything but A-Z unchanged |
| Text.LowerIdempotent | src/index.ts:120 | lower-casing twice is lower-casing once |
| Text.TrimLowerCommute | src/index.ts:111 | `trim().toLowerCase()` equals lower-casing first and trimming after |
| Text.Utf16Length | src/index.ts:19-61 | the length zod's `min`/`max` measure, in UTF-16 code units, lies between the number of characters and twice it, is zero only for the empty string, equals the number of characters when none is outside the Basic Multilingual Plane and twice it when all are |
| Text.Utf16LengthOfChar | src/index.ts:19-61 | a character outside the Basic Multilingual Plane counts two code units, any other one |
| Text.Utf16LengthAppend | src/index.ts:19-61 | the code-unit length of a concatenation is the sum of the parts' lengths, so with the single-character case it fixes the length of every string |
| JsonData.IsRecord | src/index.ts:87-89 | a value is a record exactly when it is neither null nor a boolean, number or string: objects and arrays both pass |
| JsonData.Get | src/index.ts:92 | `obj[key]` is defined only for an object holding the key, and then is that field |
| JsonData.PickString | src/index.ts:91-97 | a field is picked exactly when it is a string with a non-whitespace character, and is returned untrimmed |
| JsonData.PickBoolean | src/index.ts:99-102 | a field is picked exactly when it is a boolean, and is returned as it is |
| JsonData.PickNumber | src/index.ts:104-107 | a field is picked exactly when it is a finite number; NaN and the infinities are dropped |
| JsonData.BlankStringIsAbsent | src/index.ts:93-96 | a whitespace-only string reads as absent |
| JsonData.PaddedStringIsKept | src/index.ts:93-96 | a string with any visible character is returned with its padding |
| JsonData.VisibleFieldIsPicked | src/index.ts:91-97 | a field starting with a visible character is picked as it is |
| Language.NormalizeLanguage | src/index.ts:109-116 | en-US exactly when the hint is a string whose trimmed lower-case form starts with "en"; ja-JP exactly when it does not but starts with "ja" or "jp"; zh-CN otherwise, for non-strings too |
| Language.CanonicalIdempotent | src/index.ts:111 | canonicalising a canonical hint changes nothing |
| Language.NormalizeIgnoresPaddingAndCase | src/index.ts:109-116 | padding and ASCII case never change the locale a hint selects |
| Language.NormalizeTag | src/index.ts:109-116 | each reported tag normalises back to its own locale, so the three tags of src/index.ts:16 are distinct |
| Language.NonStringIsChinese | src/index.ts:110 | a hint that is absent or not a string is zh-CN |
| Language.NormalizePaddedEnglish | src/index.ts:111-112 | " EN-gb" is en-US |
| Language.NormalizeJapaneseAlias | src/index.ts:113 | "JP" is ja-JP |
| Language.NormalizeTraditionalChinese | src/index.ts:114 | "zh-TW" is zh-CN |
| Language.NormalizeUnsupportedIsChinese | src/index.ts:115 | "fr" falls back to zh-CN |
| Answers.KeyTag | src/index.ts:17 | a key's name is a non-empty lower-case ASCII word |
| Answers.KeyTagIsLowerEnglishLabel | src/index.ts:17 | a key's name is its en-US label lower-cased |
| Answers.KeyTagClassifiesBack | src/index.ts:17 | classifying a key's name gives back the key, so the four names are distinct |
| Answers.ToAnswerKey | src/index.ts:118-130 | yes exactly when the trimmed verdict is "是" or "yes" in any ASCII case; no exactly when it is "不是" or "no"; yes and no come from the exact tier only |
| Answers.ToAnswerKeyIgnoresPadding | src/index.ts:119 | surrounding whitespace never changes the key |
| Answers.ToAnswerKeyIgnoresAsciiCase | src/index.ts:119-129 | ASCII case never changes the key |
| Answers.ExactTierIgnoresAsciiCase | src/index.ts:122-125 | each exact-tier test reads the same verdict before and after lower-casing |
| Answers.BothCharacterisation | src/index.ts:122-128 | both exactly when the trimmed verdict is a both-literal, or mentions "yes" and "no" after lower-casing, or contains "是也不是"; no exact match shadows a fallback |
| Answers.YesAndNoIsBoth | src/index.ts:127 | any verdict mentioning both "yes" and "no" is both |
| Answers.UnrecognisedIsIrrelevant | src/index.ts:129 | a verdict that is neither exact nor caught by a fallback is irrelevant |
| Answers.LocalizeAnswer | src/index.ts:132-155 | every label is non-empty with no whitespace at its ends |
| Answers.LocalizeAnswerInjective | src/index.ts:133-152 | within one locale distinct keys have distinct labels |
| Answers.LabelRoundTrip | src/index.ts:118-155 | classifying a zh-CN or en-US label gives back its key |
| Answers.ChineseLabelRoundTrip | src/index.ts:133-139 | each zh-CN label classifies to its key |
| Answers.EnglishLabelRoundTrip | src/index.ts:140-145 | each en-US label classifies to its key |
| Answers.JapaneseLabelsAreIrrelevant | src/index.ts:146-151 | every ja-JP label classifies as irrelevant, so the round trip fails there |
| Answers.CaselessUnknownIsIrrelevant | src/index.ts:118-130 | an unpadded verdict without ASCII letters and without "是" is irrelevant |
| Answers.ClassifyYesExamples | src/index.ts:122 | "Yes" and "是" are yes |
| Answers.ClassifyYesAndNo | src/index.ts:124 | "yes and no" is both |
| Answers.ClassifyUnknown | src/index.ts:129 | "不知道" is irrelevant |
| Answers.MixedVerdictIsBoth | src/index.ts:127 | "No, yes I mean no" is both: the fallback is lossy |
| Messages.LocalizeStartInstruction | src/index.ts:157-165 | the start instruction of a locale contains every label `localizeAnswer` shows in it |
| Messages.LocalizeCtaText | src/index.ts:167-175 | every call-to-action text names turtlenoir.com |
| Messages.BuildTranslationInstruction | src/index.ts:177-185 | the translation instruction names every listed field and the target locale tag |
| Schemas.Rejections | src/index.ts:302-305 | the rejected keys are exactly the keys of failing fields; none are rejected exactly when every field passes |
| Schemas.ParseStartSession | src/index.ts:19-42 | parsed exactly when the schema accepts the bag; on success region (2-8 units), difficulty (one of 简单, 中等, 困难), keyword (1-100) and language (2-16) are each the given string or absent; otherwise the failing fields are listed |
| Schemas.ParseAskQuestion | src/index.ts:43-52 | parsed exactly when the schema accepts the bag; on success session_id and question are the given non-empty strings and language is 2-16 units or absent |
| Schemas.ParseGiveUp | src/index.ts:53-61 | parsed exactly when the schema accepts the bag; on success session_id is the given non-empty string and language is 2-16 units or absent |
| Schemas.EmptyQuestionRejected | src/index.ts:45 | a missing or empty question is rejected on `question` |
| Schemas.EmptySessionIdRejected | src/index.ts:43-55 | a missing or empty session_id is rejected on `session_id` by both schemas that need it |
| Schemas.LanguageOutOfBoundsRejected | src/index.ts:36-41 | a language hint shorter than 2 or longer than 16 units is rejected by all three schemas |
| Schemas.NonStringLanguageRejected | src/index.ts:55-60 | a non-string language, null included, is rejected |
| Schemas.EmptyBagStartsSession | src/index.ts:19-42 | an empty bag is a valid start_session request with every option absent |
| Projection.ProjectStart | src/index.ts:318-338 | a shape error for a non-record; a missing-fields error when session_id, title or content lacks visible text; otherwise those three as received, puzzle_id when present, the locale's instruction and a translation instruction for title and content |
| Projection.ProjectAsk | src/index.ts:363-385 | a shape error for a non-record; a missing-answer error when answer lacks visible text; otherwise the caller's session id, the verdict's key, its label in the locale, the verdict as received, and short_reason, solved and progress exactly when present and well-typed (progress only when finite) |
| Projection.ProjectGiveUp | src/index.ts:409-421 | a shape error only for a non-record; otherwise title when present, solution falling back to full_story, cta_url falling back to https://turtlenoir.com, and the locale's call-to-action text |
| Projection.RenderStarted | src/index.ts:330-338 | the start_session object has exactly seven keys, each holding its field; an absent puzzle id is null |
| Projection.RenderAnswered | src/index.ts:375-385 | the ask_question object has exactly nine keys; answer_key is the key's name; an absent reason is null, and solved and progress are null exactly when absent |
| Projection.RenderRevealed | src/index.ts:413-421 | the give_up_and_reveal object has exactly seven keys; absent title and solution are null; cta_url and cta_text are always strings |
| Projection.Render | src/index.ts:330-421 | every result object reports the session id, the locale tag and the translation instruction |
| Projection.AnsweredLabelClassifiesBack | src/index.ts:372-379 | in zh-CN and en-US the label shown classifies back to the key reported beside it |
| Projection.AnsweredKeyIgnoresPadding | src/index.ts:367-380 | a padded verdict gets the key of its trimmed form and is echoed with its padding |
| Projection.StartedNamesTranslatedFields | src/index.ts:337 | the start result asks to translate title and content into its locale |
| Projection.RevealedNamesTranslatedFields | src/index.ts:420 | the reveal result asks to translate title, solution and cta_text |
| Projection.GiveUpOnArrayUsesDefaults | src/index.ts:409-421 | an array body is a successful reveal with every default |
| Projection.StartOnArrayIsMissingFields | src/index.ts:318-328 | an array body at start_session is a missing-fields error |
| Projection.BlankSolutionFallsBackToFullStory | src/index.ts:417 | a whitespace-only solution gives way to full_story |
| Handler.ToolByName | src/index.ts:300-395 | a name selects the tool it names, and only it |
| Handler.StartPayload | src/index.ts:309-314 | the start request holds the locale tag and each option that is present and non-empty, and nothing else |
| Handler.BuildStartPayload | src/index.ts:309-314 | building the start request field by field yields exactly `StartPayload` |
| Handler.AskPayload | src/index.ts:357-361 | the ask request holds exactly session_id, question and language: the first two as given, the locale tag last |
| Handler.GiveUpPayload | src/index.ts:404-407 | the give-up request holds exactly session_id as given and the locale tag |
| Handler.CallFailure | src/index.ts:339-344 | a failed call is an error with the tool's headline, the base URL joined to the tool's endpoint, and the thrown message (likewise 386-391 and 422-427) |
| Handler.HandleStartSession | src/index.ts:300-346 | rejected arguments give the invalid-arguments error and no call; accepted ones post `StartPayload` to /start-session with the normalised locale, project a reply with `ProjectStart` and report a failure with `CallFailure` |
| Handler.HandleAskQuestion | src/index.ts:348-393 | rejected arguments give the invalid-arguments error and no call; accepted ones post `AskPayload` to /ask-question, project a reply with `ProjectAsk` for the caller's session id and report a failure with `CallFailure` |
| Handler.HandleGiveUp | src/index.ts:395-429 | rejected arguments give the invalid-arguments error and no call; accepted ones post `GiveUpPayload` to /give-up, project a reply with `ProjectGiveUp` for the caller's session id and report a failure with `CallFailure` |
| Handler.Dispatch | src/index.ts:299-431 | an unknown name is "Tool not found: <name>" with no call; invalid arguments are reported with the failing fields and no call; valid arguments make exactly one call, to the tool's endpoint with the tool's payload for the normalised locale, and a reply is projected by the tool's projection; a failed call is reported with the headline, full endpoint and message |
| Handler.NoCallNoInfluence | src/index.ts:302-305 | when no call is made the upstream outcome cannot change the result |
| Handler.CallIndependentOfReply | src/index.ts:299-431 | the request sent does not depend on the reply |
| Handler.CallCarriesLocale | src/index.ts:307-314 | every request carries the locale normalised from the language argument |
| Handler.ValidatedOptionsAreForwarded | src/index.ts:312-314 | after validation each optional start_session field is forwarded exactly when given, unchanged |
| Handler.AskForwardsQuestion | src/index.ts:357-361 | the ask request holds exactly session_id, question and language, the first two unchanged |
| Handler.MissingArgumentsAreEmpty | src/index.ts:302 | calling without arguments is calling with an empty bag |
| Handler.AskWithoutArgumentsIsRejected | src/index.ts:350-353 | ask_question without arguments is rejected on session_id and question, with no call |
| Handler.UnknownToolIsNotFound | src/index.ts:431 | the name "hint" is reported as "Tool not found: hint" |
| Handler.StartReplyStarts | src/index.ts:322-338 | a reply holding session_id, title and content and no puzzle_id starts a session with no puzzle id |
| Handler.StartSessionEndToEnd | src/index.ts:300-338 | start_session with no arguments posts only {"language": "zh-CN"} and starts a zh-CN session |
| Handler.EnglishHintParses | src/index.ts:43-52 | the bag {session_id "s1", question "Q", language "en"} is a valid ask_question request |
| Handler.EnglishHintNormalizes | src/index.ts:109-112 | the hint "en" normalises to en-US |
| Handler.AskQuestionEnglishCall | src/index.ts:355-361 | a question with language "en" is forwarded with en-US |
| Handler.ChineseYesShownInEnglish | src/index.ts:367-379 | the verdict "是" shown to an en-US player is key yes, label "Yes", original "是" |
| Handler.AskQuestionEnglishResult | src/index.ts:363-385 | end to end, a question in "en" answered "是" yields key yes shown as "Yes" |

## Left out

- `postJson` (src/index.ts:217-263) is not modelled: the HTTP request, its headers and bearer key, the timeout, JSON parsing of the body, and the wording of its error messages. Its outcome is the `Upstream` parameter.
- The configuration read from the environment (src/index.ts:11-14) is not modelled. The base URL is a parameter, without the trailing-slash stripping.
- The ListTools handler, the JSON Schema conversion, the server object and `main` (src/index.ts:264-297 and 434-443) are not modelled; they are static metadata and process start-up.
- `textResult` and `errorResult` (src/index.ts:187-215) are modelled as the `ToolResult` datatype. The two-space JSON text they produce is not modelled. For text results, `Projection.Render` gives the object that is serialised.
- Schemas.Rejections: only the names of failing fields are modelled. The zod error messages and the `formErrors` part of `flatten()` are not, since the MCP arguments are always an object.
- Text.Lower: only A-Z are lower-cased. `toLowerCase` also maps non-ASCII capitals, which can matter only for hints or verdicts written with such letters.
- Text.Utf16Length: a Dafny string holds Unicode scalar values, so lone surrogates cannot be represented.
- JSON numbers are mathematical reals. IEEE-754 double rounding is not modelled; only the finite/non-finite distinction that `pickNumber` tests is.
- JSON objects are maps. Key order and repeated keys are not modelled, and neither is the key order of the serialised output.
- Reading a key from a JSON array yields nothing. Array own properties such as `length` are never among the keys the adapter reads.
- The asynchronous control flow is not modelled; each tool call is one step. Exceptions thrown inside the `try` blocks other than the upstream call's cannot arise from the modelled code.
