# Student classroom analysis: a Dafny model of the evaluation service

The application writes a classroom-performance evaluation for a student
from a teacher's notes and a rating label (优秀, 良好, 一般, 待改进). Its
core is the `AIService` object. The object fills a prompt template with the
notes and the rating. It dispatches on the name of the current backend
(OpenAI, Baidu, Alibaba or Tencent) to an adapter, which builds that
backend's request envelope and reads the reply text along a backend-specific
property path. Around the core sit these pieces:

- the settings record, whose fields fall back to defaults when environment variables are unset, empty or unparseable;
- three JSON routes of the web server;
- a command-line setup wizard that reads, edits and lists a `.env` file;
- the keyword extractor and quality checks of the API test script.

The project models each piece as pure functions over immutable datatypes,
with contracts and lemmas for what the code promises:

| module | file | models |
|---|---|---|
| `Wrappers` | wrappers.dfy | `Option` and `Result` |
| `JsString` | js_string.dfy | `includes`, `indexOf`, `trim`, `split`, `length` (UTF-16), `toLowerCase` on ASCII letters, and `replace` with a string pattern, including the `$$`, `$&`, `` $` `` and `$'` replacement patterns |
| `JsValue` | js_value.dfy | parsed JSON replies and chains of property reads that throw on `undefined` and `null` |
| `Config` | config.dfy | `parseInt` without a radix, the `\|\|` fallbacks, the default template and the rating guidance map |
| `Providers` | providers.dfy | the closed set of four backends and their names |
| `Prompt` | prompt.dfy | `buildPrompt` |
| `Adapters` | adapters.dfy | the four request envelopes and reply paths |
| `AiService` | ai_service.dfy | the provider state, `setProvider`, `getSupportedProviders` and `generateEvaluation` |
| `Server` | server.dfy | `/api/generate-evaluation`, `/api/config` and `/api/switch-provider` as handlers from the parsed body and the service state to a status and a body |
| `EnvFile` | env_file.dfy | `.env` parsing (`loadExistingConfig`), the first-line upsert of `saveConfig`, and the masked listing of `showCurrentConfig` |
| `Wizard` | wizard.dfy | one answer step of `askConfig`, runs of answers, and the opening yes/no question |
| `Keywords` | keywords.dfy | `extractKeywords`, the relevant-keyword filter, the length band and the suggestion-word check of `analyzeEvaluation` |

The environment and every external effect are parameters:

- The process environment is a `map<string, string>`, where an unset variable is a missing key.
- The network is a function `transport` from the envelope posted to the parsed reply, or to the error the post threw.
- The `.env` file is its text, or `None` when it cannot be read.
- The answers typed into the wizard are a sequence of strings.

With the default template, where `{content}` comes before `{rating}`, a
`{rating}` inside the notes is substituted. The code replaces the first
`{rating}` of the text left after the notes were put in, so a `{rating}`
inside the notes is the one replaced, and the template's own `{rating}` is
sent as it is (`Prompt.RatingPlaceholderInsideContent`).

## Model

| member | source | states |
|---|---|---|
| JsString.ReplaceFirst | ai-service.js:146-147 | `replace` with a string pattern changes only the first occurrence, and does nothing when there is none; a replacement without `$` is inserted as it is |
| JsString.Trim | server.js:31 | the trimmed text is empty exactly when the input is all white space, and is the input with white space removed at both ends only |
| JsString.SplitJoin | quick-config.js:64 | `split` on one character gives back the pieces that were joined with it, when no piece holds that character |
| JsString.Utf16Length | test-api.js:94 | `length` counts UTF-16 code units: between one and two per character, and exactly one per character inside the Basic Multilingual Plane |
| JsString.Utf16LengthOfChar | test-api.js:94 | one character counts two code units exactly when it lies above U+FFFF, and one otherwise |
| JsString.Utf16LengthAppend | test-api.js:94 | the length of two texts put together is the sum of their lengths |
| Config.ParseIntOfDecimal | config.js:7 | `parseInt` reads back a decimal numeral followed by any text that does not start with a digit; only after a lone `0` must the text also not start with `x` or `X`, which would make it hexadecimal |
| Config.ParseIntOfNegativeDecimal | config.js:7 | `parseInt` reads a leading minus sign as negation |
| Config.ParseIntSkipsWhiteSpace | config.js:7 | leading white space does not change what `parseInt` reads |
| Config.IntSetting | config.js:7 | an unset variable, or one `parseInt` reads as NaN or as 0 (such as "-0", " 0" or "00"), gives the default; a variable read as a non-zero number gives that number; a non-zero default never yields 0 |
| Config.IntSettingOfNumeral | config.js:82-84 | a variable holding a non-zero numeral sets the field to that number |
| Config.IntSettingOfZero | config.js:7 | a variable holding the numeral 0, followed by text that does not continue it, falls back to the default |
| Config.IntSettingOfBlank | config.js:82-84 | a blank variable parses to NaN and falls back to the default |
| Config.StringSetting | config.js:6 | an unset or empty variable gives the default, a set, non-empty one gives its own value, and a non-empty default never yields "" |
| Config.RatingPrompts | config.js:47-52 | the guidance map has exactly the four labels, each read from its own variable (`EXCELLENT_PROMPT`, `GOOD_PROMPT`, `AVERAGE_PROMPT`, `POOR_PROMPT`) with its own default, and each guidance text is non-empty |
| Config.LoadSettings | config.js:2-87 | each field is read from its own variable with its own default (token limit 500, word counts 10, 500 and 250), the guidance map is `RatingPrompts`, the temperature and the Baidu, Alibaba and Tencent keys and Baidu secret are their variables as set or unset, the key is unset exactly when `OPENAI_API_KEY` is, the other backends' endpoints and models are fixed, and custom rating is enabled only by exactly "true" |
| Config.EmptyEnvironmentDefaults | config.js:4-86 | with nothing set, every field takes its documented default |
| Config.DefaultMainPromptPlaceholders | config.js:18-44 | the default template holds exactly one `{content}` and exactly one `{rating}`, `{content}` first |
| Providers.Parse | ai-service.js:159 | exactly the four names are accepted, and each one selects the backend of that name |
| Providers.SupportedNamesAreNames | ai-service.js:173-175 | the list is the four backends' names, in declaration order, without repeats |
| Prompt.BuildPrompt | ai-service.js:142-155 | the prompt is the template with `{content}` and then `{rating}` replaced, followed by "\n\n特别说明：" and the guidance exactly when the label owns non-empty guidance |
| Prompt.Appendix | ai-service.js:150-152 | guidance is appended exactly when the label has a non-empty entry, and then it is "\n\n特别说明：" followed by that entry |
| Prompt.BuildPromptOnDefaultTemplate | ai-service.js:142-155 | with the default template, notes free of `{` and `$` fill `{content}` and the rating fills `{rating}`, followed by the guidance |
| Prompt.RatingPlaceholderInsideContent | ai-service.js:146-147 | with the default template, where `{content}` comes first, a `{rating}` inside the notes is the occurrence the rating replaces, and the template's own `{rating}` is sent as it is |
| Prompt.BuildPromptWithoutPlaceholders | ai-service.js:146-147 | a template without placeholders is sent unchanged, followed by the guidance |
| Prompt.AppendixAsWrittenAgrees | ai-service.js:150-152 | for a label the map owns, or one no object inherits, the lookup as written and the whole prompt as written agree with the intended ones |
| Prompt.InheritedRatingLeaks | ai-service.js:150-152 | a label that the map does not own but every object inherits gets that member's text appended as guidance |
| Prompt.InheritedRatingLeaksIntoPrompt | ai-service.js:150-152 | the label "toString" has no guidance, yet the code appends the source text of `Object.prototype.toString` |
| Adapters.BuildRequest | ai-service.js:39-136 | each envelope goes to its backend, carries the prompt as its last message, and carries the shared token limit and temperature; only OpenAI also carries the system prompt; Baidu names no model; each backend has its own address and key; the three posts other than OpenAI's declare `Content-Type: application/json` |
| Adapters.SamePromptEverywhere | ai-service.js:43-127 | every backend receives the same prompt as its last message, and only OpenAI's first message is a system message |
| Adapters.ExtractReply | ai-service.js:82 | reading from `undefined` or `null` throws, and Baidu returns `result` or `undefined` |
| Adapters.ExtractShapedReply | ai-service.js:57-138 | any reply whose objects and first array elements lead along the backend's path to the text gives the text back, whatever other fields it carries |
| Adapters.ExtractCanonicalReply | ai-service.js:57-138 | each backend's minimal documented reply has that shape, so the adapter reads the text back out of it |
| Adapters.ExtractFromEmptyObject | ai-service.js:57-138 | on a reply without the expected fields, Baidu returns `undefined` and the others throw reading a property of `undefined` |
| AiService.Construct | ai-service.js:5-7 | the initial provider is `AI_PROVIDER` when that is set and non-empty, otherwise "openai", unchecked |
| AiService.SetProvider | ai-service.js:158-165 | the name is taken exactly when it is supported; otherwise the call throws "不支持的AI提供商: name" and the provider is unchanged |
| AiService.GetSupportedProviders | ai-service.js:173-175 | the four names in order, and exactly the names `setProvider` accepts |
| AiService.Receive | ai-service.js:24-27 | a transport error is rethrown as it was, and a reply read error is thrown |
| AiService.GenerateEvaluation | ai-service.js:10-28 | an envelope is sent exactly when the provider is supported, built by that backend's adapter from `buildPrompt`; otherwise the call throws without building one |
| AiService.DispatchRoutes | ai-service.js:12-20 | each backend name is routed to that backend's own adapter |
| AiService.ConstructDoesNotValidate | ai-service.js:6-22 | any non-empty `AI_PROVIDER` outside the four names is stored, and the first call then throws "不支持的AI提供商: name" without posting |
| AiService.SentPromptAsWritten | ai-service.js:10-20 | for a label the map owns, or one no object inherits, the envelope sent carries the prompt exactly as the code builds it |
| AiService.SwitchThenGenerate | ai-service.js:158-160 | after switching to a backend, the next call goes to that backend |
| AiService.RejectedSwitchKeepsBehaviour | ai-service.js:162-164 | a rejected switch leaves the next call exactly as it was |
| AiService.OutcomeDependsOnlyOnSentEnvelope | ai-service.js:10-28 | the call posts once and does not retry: only the answer to the one envelope matters |
| AiService.WellFormedReplyIsReturned | ai-service.js:57-138 | a backend whose reply holds the text along its documented path, with any other fields besides, makes the call return the text |
| AiService.TransportErrorRethrown | ai-service.js:24-27 | a failed post is rethrown unchanged |
| Server.HandleGenerate | server.js:26-57 | missing or blank notes give 400 "课堂内容不能为空" before the rating is checked, and a missing rating gives 400 "请选择评价等级"; the service is called only when both are present and the rating has a string form; a rating whose conversion to a string throws gives 500 before any envelope is built; success gives 200 with the evaluation unchanged; any failure gives 500 with the fixed message |
| Server.GenerateStatuses | server.js:26-57 | every response is 200 with an evaluation, 400 with one of the two validation messages, or 500 with the generic message |
| Server.ValidationIgnoresBackend | server.js:31-41 | a request the guards reject gets the same response whatever the backend does |
| Server.FailureHidesCause | server.js:51-55 | two failing calls give the same response, so the cause is not exposed |
| Server.ContentReachesBackend | server.js:31-44 | notes that are not all white space, with a non-empty rating, reach the backend as the prompt built from them |
| Server.ContentReachesBackendUntrimmed | server.js:44 | notes with leading white space reach the backend as they were sent, not trimmed |
| Server.HandleSwitch | server.js:69-83 | a supported name gives 200 with "AI提供商已切换到: name" and that name as current; anything else gives 400 with the provider unchanged, carrying "不支持的AI提供商: " and the value as a string, or "Cannot convert object to primitive value" when the value has no string form |
| Server.HandleConfig | server.js:60-66 | the configuration route reports the current provider, the supported list and the evaluation settings |
| Server.ConfigReflectsSwitch | server.js:60-83 | the configuration route reports a successful switch, and a rejected switch changes nothing it reports |
| Server.SwitchRoutesGeneration | server.js:69-83 | after switching to a backend through the route, generation requests go to that backend |
| EnvFile.Put | quick-config.js:70 | assigning a property keeps keys unique, sets the key, leaves every other key, appends a new key last, and ignores `__proto__` |
| EnvFile.ParseLine | quick-config.js:66-73 | blank lines, lines starting with `#`, and lines without `=` give no entry |
| EnvFile.ParseLineOfPair | quick-config.js:68-71 | a line `a=b` or `a=b=...` gives the trimmed `a` and `b`, only when both are non-empty before trimming; text after a second `=` is dropped |
| EnvFile.LoadExistingConfig | quick-config.js:61-77 | the loaded object has unique keys, an unreadable file leaves it empty, and otherwise each key holds the value of the last line that sets it |
| EnvFile.LoadLinesLastWins | quick-config.js:66-73 | a key's value is the one on the last line that parses with that key |
| EnvFile.FindKeyLine | quick-config.js:86-89 | the match is the first index where a line starts with `KEY=` |
| EnvFile.LineEnd | quick-config.js:86 | `.*$` stops at the first line terminator or at the end of the text |
| EnvFile.Upsert | quick-config.js:86-93 | with no `KEY=` line, "\nKEY=value" is appended; otherwise only the first such line, up to its end, becomes `KEY=value` and the text around it is kept |
| EnvFile.UpsertReadBack | quick-config.js:85-94 | after an upsert, the first `KEY=` line holds the value written |
| EnvFile.SaveConfigSnoc | quick-config.js:85-94 | saving one more entry is one more upsert over what the others wrote |
| EnvFile.UpsertKeepsOther | quick-config.js:85-94 | an upsert of one key leaves what the first line of every other key says |
| EnvFile.SaveConfigLastReadBack | quick-config.js:80-96 | the entry written last reads back from the saved text |
| EnvFile.SaveConfigReadBack | quick-config.js:80-96 | every entry saved reads back from the saved text |
| EnvFile.ShowConfig | quick-config.js:160-170 | the listing has one line per entry, in order, made of three spaces, the key and ": " followed by the value, or by exactly eight asterisks when the key contains KEY or SECRET |
| EnvFile.ShowConfigHidesSecrets | quick-config.js:160-170 | the listing shows nothing of a value whose key contains KEY or SECRET |
| EnvFile.ShowConfigShowsPlainValues | quick-config.js:160-170 | two listings of the same keys are equal exactly when the values of the keys that are not secret are equal |
| Wizard.Effective | quick-config.js:125-130 | a blank answer takes the default, and any other answer is trimmed |
| Wizard.AnswerSpec | quick-config.js:124-156 | an answer is asked again exactly when its value is not one of the options or is empty for a required question, and then nothing changes; otherwise the index moves on by 1, or by 3 for a backend other than OpenAI, and the value is stored under the question's key with every other key kept |
| Wizard.AnswerKeepsConsistent | quick-config.js:132-146 | every stored value stays one that its question accepted |
| Wizard.Run | quick-config.js:104-157 | any run of answers keeps the stored values acceptable and never moves back, and a finished wizard asks nothing more |
| Wizard.DefaultsFinish | quick-config.js:31-55 | four blank answers store the defaults for all four questions and finish |
| Wizard.OtherBackendSkipsOpenAIQuestions | quick-config.js:149-153 | choosing baidu, alibaba or tencent skips the key and model questions, so the next answer sets the port |
| Wizard.WantsReconfigureExactly | quick-config.js:178 | the wizard reconfigures exactly for the case variants of "y" and "yes" |
| Keywords.Filter | test-api.js:114-126 | the kept items are a sub-list of the input, and are exactly the items that pass the test |
| Keywords.FilterMultiplicity | test-api.js:114-126 | each passing item is kept as many times as it occurs, and no other item is kept |
| Keywords.Dedup | test-api.js:128 | the result has no duplicates, is a sub-list of the input, and keeps every item |
| Keywords.DedupFirstOccurrenceOrder | test-api.js:128 | the items come in the order of their first occurrence in the input, as a `Set` keeps them |
| Keywords.ExtractKeywords | test-api.js:109-129 | exactly the fixed keywords found in the text, maths words first, in list order, without duplicates, at most 14 |
| Keywords.ExtractFromEmptyText | test-api.js:109-129 | empty text yields no keywords |
| Keywords.RelevantKeywords | test-api.js:74-78 | the relevant keywords are the content keywords that contain, or are contained in, some evaluation keyword, in content order |
| Keywords.SharedKeywordsAreRelevant | test-api.js:74-78 | a keyword found in both texts is relevant |
| Keywords.LengthInBandOfBmp | test-api.js:94-101 | for text inside the Basic Multilingual Plane, the length check passes exactly for 200 to 400 characters |
| Keywords.LengthOutOfBand | test-api.js:97 | a text under 100 or over 400 characters fails the length check, whatever its characters |
| Keywords.SuggestionsSurviveAdditions | test-api.js:104 | adding text around an evaluation never removes its suggestions |

## Left out

- Network calls are not modelled: the OpenAI SDK and the axios posts. They are the `transport` parameter, and a failed post is one abstract error value.
- `temperature` is not evaluated. `parseFloat(...) || 0.7` needs floating point, so the raw variable is passed through as an opaque value.
- The relevance percentage and its `toFixed(1)` thresholds in `analyzeEvaluation` are left out, because they are floating point. The relevant-keyword list they are computed from is modelled.
- The browser page public/script.js is not modelled. It is user-interface code.
- Express routing and middleware, readline, `fs`, `process.exit` and console output are left out. The handlers take the parsed body, and the wizard takes the file text and the answers.
- A `setProvider` that runs while a `generateEvaluation` is already under way is not modelled. Each call sees one provider state.
- `Object.keys` puts integer-like keys first. The entries are kept in insertion order only, which is exact for the keys the wizard writes.
- `res.json` drops a field whose value is `undefined`, such as Baidu's reply without `result`. `EvaluationBody` keeps `Undefined` as a value.
- CRLF line endings in `.env` get no special treatment, and no property is stated for files that use them.
- `toLowerCase` is modelled on ASCII letters only. No other character lowers to `y`, `e` or `s`, so `WantsReconfigure` is exact.
- EnvFile.Upsert: the in-place case is stated only for values without `$`. With a `$`, `replace` expands the patterns; `JsString.Expand` models that, but it is not proved about here.
- EnvFile.SaveConfigReadBack: keys are required to be upper-case letters, digits and `_`, and values to hold no `$` and no line break. Only the four wizard keys are ever saved, and other keys would need regular-expression escaping.
- AiService.GenerateEvaluation: builds the prompt with the corrected label lookup (`Prompt.BuildPrompt`). The code as written differs only for a label no map owns but every object inherits, such as "toString"; `AiService.SentPromptAsWritten` states that they agree everywhere else, and `Prompt.InheritedRatingLeaksIntoPrompt` shows the difference.
- Config.IntSetting: `parseInt` returns a double, so a numeral above 2^53 is rounded. `ParseInt` and `IntSetting` give the exact integer.
- EnvFile.ShowConfig: the heading line "📋 当前配置:" and the blank line after the entries are console output and are left out; only the entry lines are modelled.
- Server.HandleGenerate: when the rating has no string form and the backend name is not supported, the code throws the unsupported-backend error rather than the TypeError; both give the same 500 response, and no attempt is recorded for either.
- Prompt.RatingPlaceholderInsideContent: stated for the default template only, with notes whose text before the `{rating}` holds no `{` and with no `$` anywhere. A `MAIN_PROMPT` that puts `{rating}` before `{content}` gets its own `{rating}` replaced, and the notes' copy is sent as it is; only `JsString.ReplaceFirst` covers that case.
- Prompt.BuildPromptOnDefaultTemplate: requires notes free of `{` and `$` and a rating free of `$`. Other notes are covered only by `JsString.ReplaceFirst`.

## Findings

| source | as written | input that shows it | evidently intended | confidence | as-written member | corrected member |
|---|---|---|---|---|---|---|
| ai-service.js:150-152 | `config.prompts.ratingPrompts[rating]` also finds members that every object inherits from `Object.prototype`, and those are truthy functions | the rating "toString" (the server accepts any truthy rating): the prompt ends with "\n\n特别说明：function toString() { [native code] }" | guidance only for labels the map owns, so nothing is appended for "toString" | not executed | Prompt.InheritedRatingLeaksIntoPrompt | Prompt.Appendix |
