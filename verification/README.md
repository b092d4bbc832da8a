# SOULVERSE compatibility route, modelled in Dafny

SOULVERSE collects two people's birth dates, MBTI types, blood types and
birth times, asks a generative-language model (Gemini) for a compatibility
report, and answers with that report in a fixed shape. This project models
the POST handler of `app/api/compat/route.ts`, which does all of the logic:

- the configuration read at load time: the API key, and the model name
  trimmed and stripped of one leading `models/`;
- the checks that run before the model is called, in the order the handler
  runs them: the key, then the model whitelist, then reading and coercing the
  body, then the four required inputs;
- the one call to the model, and the extraction of the text from the
  response envelope (`candidates[0].content.parts[0].text`);
- `extractJson`, which strips a code fence and cuts the reply down to its
  trailing object;
- the parse step, which falls back to `{}`;
- `normalize` with its `num` helper, which turns whatever was parsed into a
  report with a score in [30, 98], five facet scores in [0, 100], a summary,
  at most three insights, a one-liner and five explanations.

The model is made of functions and lemmas, as the handler is: it builds
values and mutates nothing. The modules follow the file's parts:

| file | module | what it holds |
|---|---|---|
| `jsstring.dfy` | `JsString` | `trim`, ASCII `toUpperCase`, first- and last-index search, decimal rendering of a status code |
| `jsvalue.dfy` | `JsValue` | parsed JSON values; truthiness, `?.`, `\|\|`, `String(v)`, `Number(v)`, `Math.round`, `Math.max/min` |
| `extract.dfy` | `Extraction` | `extractJson`, its lemmas, and the extraction its comments describe |
| `normalize.dfy` | `Normalizer` | the report, `num`, `normalize`, the serialised report, and the corrected normaliser |
| `normalize_properties.dfy` | `NormalizeProperties` | what `normalize` promises field by field, and the read-back round trip |
| `envelope.dfy` | `Envelope` | the text extraction inside `callGemini` |
| `route.dfy` | `Route` | configuration, coercion, the guard chain, and the handler |
| `route_properties.dfy` | `RouteProperties` | the order of the checks, the call count, and end-to-end outcomes |

The JavaScript runtime's own primitives are parameters of type `Runtime`:
`JSON.parse` (`None` when it throws), `Number` on a string (`None` when the
result is not finite), and `String` on numbers, arrays and objects. Nothing
is assumed about them. The model call is a parameter `Inputs -> Reply`. It
returns either an HTTP status and body, or the message of a failed
connection. `Handle` returns the response together with the list of calls it
made, so the lemmas can count calls.

Two JavaScript details decide outcomes and are modelled exactly:

- `Number(null)` is 0, so a `null` score becomes 30, not the default 80.
  An absent score is `NaN` and does become 80.
- `String(v)` and `Number(v)` throw a TypeError when `v` is a parsed object
  with an own `toString` key, or an array holding such an object. JSON values
  are never callable, so both conversion methods fail. `normalize` and the
  input coercion can therefore throw, and the handler answers 500.

Three further facts about the code shape the model:

- `extractJson` does not cut the text at its last `}`, although the
  comments at route.ts:23 and route.ts:27 say it does. When the unfenced
  text ends in `}`, it keeps the suffix from the first `{`. Otherwise it
  returns the text unchanged, trailing prose included
  (`Extraction.TrailingProseIsKept`). See Findings below.
- There is no retry. The model is called exactly once
  (`RouteProperties.UpstreamFailureIs500`).
- A missing required input gets one fixed 400 detail, not a list of the
  missing fields.

## Model

| member | source | states |
|---|---|---|
| `JsString.TrimStart` | app/api/compat/route.ts:25 | dropping leading white space gives a suffix of the text that does not start with white space |
| `JsString.TrimStartDropsWhite` | app/api/compat/route.ts:25 | every character dropped from the front is white space |
| `JsString.TrimEnd` | app/api/compat/route.ts:25 | dropping trailing white space gives a prefix of the text that does not end with white space |
| `JsString.TrimEndDropsWhite` | app/api/compat/route.ts:25 | every character dropped from the end is white space |
| `JsString.Trim` | app/api/compat/route.ts:25 | `trim` leaves no white space at either end, never lengthens, and leaves a trimmed string as it is |
| `JsString.TrimRemovesOnlyEnds` | app/api/compat/route.ts:25 | `trim` gives the infix of the text between a white-space-only prefix and a white-space-only suffix |
| `JsString.TrimAllWhite` | app/api/compat/route.ts:10 | a text made only of white space trims to the empty string |
| `JsString.TrimStartAppend` | app/api/compat/route.ts:25-26 | appending a character after a text that is not all white space extends its start-trimmed form by that character |
| `JsString.TrimDropsTrailingWhite` | app/api/compat/route.ts:26 | trimming ignores a trailing line feed or other white-space character |
| `JsString.ToUpper` | app/api/compat/route.ts:124-127 | upper-casing keeps the length, leaves no lower-case ASCII letter, shifts each lower-case letter to its capital and keeps every other character |
| `JsString.ToUpperIdempotent` | app/api/compat/route.ts:124-127 | upper-casing twice is upper-casing once |
| `JsString.IndexOf` | app/api/compat/route.ts:28 | the first occurrence of a character: there is none before it, and the length means there is none at all |
| `JsString.LastIndexOf` | app/api/compat/route.ts:27 | the last occurrence of a character: there is none after it, and -1 exactly when there is none at all |
| `JsString.Decimal` | app/api/compat/route.ts:88 | the status code renders as a non-empty string of digits that starts with `0` exactly when the code is 0 (no leading zeros) |
| `JsString.DecimalRoundTrip` | app/api/compat/route.ts:88 | reading the rendered status code back gives the status |
| `JsValue.Truthy` | app/api/compat/route.ts:39-40 | exactly `undefined`, `null`, `false`, `0` and `""` are falsy |
| `JsValue.Get` | app/api/compat/route.ts:39-40 | optional property access finds a value exactly when the value is an object that has the key, and then it is that key's value |
| `JsValue.OrElse` | app/api/compat/route.ts:39-40 | `v \|\| fallback` is `v` when truthy and the fallback otherwise |
| `JsValue.StringOr` | app/api/compat/route.ts:50 | `String(v \|\| d)` is `d` for a falsy value and the conversion of `v` otherwise; it throws, with the TypeError's message, exactly for a value that cannot be converted |
| `JsValue.Poisoned` | app/api/compat/route.ts:50 | only objects and arrays can fail to convert, and an object fails exactly when it has an own `toString` key |
| `JsValue.ToText` | app/api/compat/route.ts:51 | `String(v)` keeps a string, spells `null`, `true` and `false`, renders numbers, and throws exactly on an object with an own `toString` key or an array holding one |
| `JsValue.ToNumber` | app/api/compat/route.ts:36 | `Number(v)`: `undefined` is NaN, `null` and `false` are 0, `true` is 1, a number is itself, a string is read as number text; it throws exactly where `String` does |
| `JsValue.Round` | app/api/compat/route.ts:37 | `Math.round` gives the integer within half of `x`, halves rounding up, and keeps an integer |
| `JsValue.Clamp` | app/api/compat/route.ts:37 | `Math.max(lo, Math.min(hi, n))` lies in `[lo, hi]`, keeps an in-range `n`, and gives the nearer end otherwise |
| `Extraction.LetterRun` | app/api/compat/route.ts:26 | the language tag `[a-z]*` under the `i` flag is the longest run of ASCII letters |
| `Extraction.DropOpeningFence` | app/api/compat/route.ts:26 | an opening fence is removed, so the text gets at least three characters shorter; text without one is unchanged |
| `Extraction.DropOpeningFenceMatches` | app/api/compat/route.ts:26 | what `^```[a-z]*\n?` removes: the fence, the longest run of ASCII letters, and a line feed exactly when one follows it |
| `Extraction.DropClosingFence` | app/api/compat/route.ts:26 | a closing fence at the very end is removed; otherwise the text is unchanged |
| `Extraction.Unfenced` | app/api/compat/route.ts:25-26 | the trimmed, unfenced text is trimmed, and is the trimmed text when there is no fence |
| `Extraction.HasTrailingObject` | app/api/compat/route.ts:28 | `/\{[\s\S]*\}$/` can match only a text of at least two characters |
| `Extraction.TrailingObject` | app/api/compat/route.ts:28-29 | the regex match is the suffix that starts at the first `{` and ends with the final `}` |
| `Extraction.ExtractJson` | app/api/compat/route.ts:24-31 | the result is a suffix of the unfenced text: from its first `{` when it ends in `}` and holds a `{`, otherwise all of it |
| `Extraction.LetterRunOfTag` | app/api/compat/route.ts:26 | a letters-only tag followed by a line feed is consumed whole by the tag pattern |
| `Extraction.DropOpeningFenceOfTag` | app/api/compat/route.ts:26 | the opening-fence pattern removes the fence, the tag and one line feed |
| `Extraction.UnfencedOfFencedBody` | app/api/compat/route.ts:25-26 | a fenced body comes out of both fences and both trims unchanged |
| `Extraction.FencedReplyYieldsBody` | app/api/compat/route.ts:24-31 | a reply fenced as "```tag\n{...}\n```" yields exactly the object between the fences |
| `Extraction.TrailingProseIsKept` | app/api/compat/route.ts:28-30 | an unfenced reply that does not end in `}` comes back trimmed but otherwise whole, prose after the object included |
| `Extraction.ExtractJsonFixes` | app/api/compat/route.ts:24-31 | a trimmed, unfenced text whose trailing object starts it is left as it is |
| `Extraction.TrailingObjectShape` | app/api/compat/route.ts:28-29 | the regex match is trimmed and starts with `{` |
| `Extraction.ExtractJsonShape` | app/api/compat/route.ts:24-31 | the result is trimmed, and when it ends in an object it starts with that object's `{` |
| `Extraction.ExtractJsonIdempotent` | app/api/compat/route.ts:24-31 | extracting twice is extracting once, unless the result itself starts with a fence |
| `Extraction.Span` | app/api/compat/route.ts:27 | the slice from the first `{` to the last `}` starts with `{`, ends with `}`, has no `{` before it and no `}` after it |
| `Extraction.ExtractJsonIntended` | app/api/compat/route.ts:23-30 | as the comments intend, the object cut from the first `{` to the last `}` when there is one, otherwise the unfenced text |
| `Extraction.LastBraceIsFinal` | app/api/compat/route.ts:28 | in a text that ends in `}`, that `}` is the last one |
| `Extraction.FirstOpenBeforeEnd` | app/api/compat/route.ts:28 | in a text the regex matches, the first `{` comes before the final `}` |
| `Extraction.LastOfTrailingObject` | app/api/compat/route.ts:27-29 | where the regex matches, the intended slice and the regex match are the same text |
| `Extraction.ExtractionsAgree` | app/api/compat/route.ts:23-30 | the intended extraction and `extractJson` agree whenever the unfenced text ends in `}` and holds a `{` |
| `Extraction.TrailingProseDefeatsExtraction` | app/api/compat/route.ts:27-30 | an object followed by prose without `}` comes back with the prose, not as the object |
| `Extraction.IntendedDropsTrailingProse` | app/api/compat/route.ts:23-30 | the intended extraction gives exactly the object for that same reply |
| `Normalizer.DefaultReport` | app/api/compat/route.ts:42-59 | the all-fallback report (score 80; facets 80, 80, 70, 90, 80; the fixed sentences and insights) is in range |
| `Normalizer.Num` | app/api/compat/route.ts:35-37 | `num` gives the default for a non-finite number, otherwise the nearest integer clamped into `[lo, hi]`; it throws exactly when `Number` does |
| `Normalizer.TextAll` | app/api/compat/route.ts:51 | `map(String)` converts every element in order and keeps the length; it throws exactly when an element cannot be converted |
| `Normalizer.Insights` | app/api/compat/route.ts:51-52 | at most three insights; it throws exactly when one of the first three array elements cannot be converted |
| `Normalizer.FacetScores` | app/api/compat/route.ts:44-48 | every facet score is in [0, 100] and is `num` of that facet's own entry with its own default |
| `Normalizer.Explanations` | app/api/compat/route.ts:54-59 | every explanation is `String(entry \|\| its own default sentence)` |
| `Normalizer.EntryOrEmpty` | app/api/compat/route.ts:39-40 | `out?.facets \|\| {}` and `out?.explanation \|\| {}` are the reply's entry when truthy and the empty object otherwise |
| `Normalizer.Normalize` | app/api/compat/route.ts:34-62 | `normalize` succeeds exactly when every value it converts can be converted; it then gives an in-range report, and otherwise throws the TypeError |
| `Normalizer.ToJson` | app/api/compat/route.ts:171 | the report is serialised as a JSON object; `NormalizeProperties.ToJsonKeys` and `NormalizeProperties.ToJsonFields` give its keys and values |
| `Normalizer.FacetObject` | app/api/compat/route.ts:43-49 | the serialised facets hold each facet's value under that facet's key |
| `Normalizer.KeysDiffer` | app/api/compat/route.ts:44-48 | the five facet keys are pairwise different |
| `Normalizer.FacetScoresSafe` | app/api/compat/route.ts:44-48 | the corrected facet scores are in range and agree with `normalize`'s when those succeed |
| `Normalizer.ExplanationsSafe` | app/api/compat/route.ts:54-59 | the corrected explanations agree with `normalize`'s when those succeed |
| `Normalizer.NormalizeSafe` | app/api/compat/route.ts:168 | the corrected normaliser never fails, keeps the report in range, and agrees with `normalize` whenever that succeeds |
| `NormalizeProperties.ScoreField` | app/api/compat/route.ts:42 | the score is 80 when absent or not finite, 30 for `null`, and an in-range integer unchanged |
| `NormalizeProperties.FacetField` | app/api/compat/route.ts:44-48 | each facet is in [0, 100], takes its own default when not finite, and keeps an in-range integer |
| `NormalizeProperties.FacetsAreIndependent` | app/api/compat/route.ts:44-48 | a facet's score depends only on that facet's entry |
| `NormalizeProperties.InsightsField` | app/api/compat/route.ts:51-52 | an array gives its first min(3, n) elements converted, in order (an empty array stays empty); anything else gives the fixed triple |
| `NormalizeProperties.TextFields` | app/api/compat/route.ts:50-59 | summary, one-liner and each explanation are their own fallback sentence when falsy and the converted value otherwise |
| `NormalizeProperties.EmptyObjectGivesDefaults` | app/api/compat/route.ts:168-171 | the `{}` that replaces an unparsable reply normalises to the all-fallback report |
| `NormalizeProperties.NonObjectGivesDefaults` | app/api/compat/route.ts:39-40 | a reply that parses to anything but an object normalises to the all-fallback report |
| `NormalizeProperties.ScoreOnlyReply` | app/api/compat/route.ts:42 | a reply holding only an in-range integer score gives the all-fallback report with that score |
| `NormalizeProperties.NumOfInteger` | app/api/compat/route.ts:35-37 | `num` reads an in-range integer as itself |
| `NormalizeProperties.FacetScoresOfReport` | app/api/compat/route.ts:44-48 | the serialised facet scores of an in-range report read back unchanged |
| `NormalizeProperties.ExplanationsOfReport` | app/api/compat/route.ts:54-59 | the serialised explanations read back unchanged when none is empty |
| `NormalizeProperties.SentencesReadBack` | app/api/compat/route.ts:54-59 | an object with a non-empty string under every facet key yields exactly those strings as explanations |
| `NormalizeProperties.InsightsOfReport` | app/api/compat/route.ts:51-52 | at most three serialised insights read back unchanged |
| `NormalizeProperties.ToJsonFields` | app/api/compat/route.ts:171 | the serialised report holds the score, summary and one-liner under their keys |
| `NormalizeProperties.ToJsonKeys` | app/api/compat/route.ts:41-61 | the serialised report is an object with exactly the six keys of the report |
| `NormalizeProperties.TopFieldsReadBack` | app/api/compat/route.ts:42-53 | the serialised score, summary and one-liner of a well-formed report read back unchanged |
| `NormalizeProperties.NormalizeFixesWellFormed` | app/api/compat/route.ts:34-62 | normalising a serialised well-formed report gives that report back |
| `NormalizeProperties.NormalizeIdempotent` | app/api/compat/route.ts:34-62 | normalising the serialised output of `normalize` changes nothing, unless a sentence came out empty |
| `NormalizeProperties.ToStringKeyBreaksNormalize` | app/api/compat/route.ts:50 | the reply `{"summary": {"toString": 1}}` makes `normalize` throw |
| `NormalizeProperties.FacetScoresSafeReads` | app/api/compat/route.ts:44-48 | in the corrected normaliser, a facet entry that converts is read as `num` reads it, and one that cannot takes the facet's fallback score |
| `NormalizeProperties.ExplanationsSafeReads` | app/api/compat/route.ts:54-59 | in the corrected normaliser, an explanation entry that converts is read as `String(e[k] \|\| d)` reads it, and one that cannot takes the fallback sentence |
| `NormalizeProperties.NormalizeSafeFields` | app/api/compat/route.ts:42-53 | in the corrected normaliser, the score, summary and one-liner are read as `normalize` reads them when they convert, and take their fallbacks otherwise |
| `NormalizeProperties.NormalizeSafeInsights` | app/api/compat/route.ts:51-52 | in the corrected normaliser, the insights are `normalize`'s when those convert, and the fixed triple when one of the first three cannot be converted or there is no array |
| `NormalizeProperties.NormalizeSafeOnToStringKey` | app/api/compat/route.ts:50 | the corrected normaliser gives that reply the all-fallback report |
| `Envelope.First` | app/api/compat/route.ts:99 | `?.[0]`: an array's first element or nothing for an empty one, an object's property "0", a string's first character, and nothing for `undefined`, `null`, booleans and numbers |
| `Envelope.TextAt` | app/api/compat/route.ts:99 | the text path leads somewhere only in an object with a "candidates" entry |
| `Envelope.TextAtHeldText` | app/api/compat/route.ts:99 | an envelope whose first candidate's first part holds a string text leads to that text, whatever else it holds |
| `Envelope.OrEmptyString` | app/api/compat/route.ts:99 | `?? ""` replaces only `undefined` and `null` |
| `Envelope.ModelText` | app/api/compat/route.ts:92-100 | a body that is not JSON is returned as it is; a falsy or missing text gives "{}"; otherwise the text converted to a string |
| `Envelope.EnvelopeTextIsReturned` | app/api/compat/route.ts:99-100 | an envelope whose first candidate's first part holds a non-empty string text yields that text unchanged |
| `Envelope.MissingTextGivesEmptyObject` | app/api/compat/route.ts:99-100 | an envelope with an empty candidates array yields "{}" |
| `Route.ApiKey` | app/api/compat/route.ts:10 | the Google key wins whenever it is non-empty, and the result is trimmed |
| `Route.ModelName` | app/api/compat/route.ts:12 | the default when unset; otherwise the trimmed name, with one leading "models/" removed |
| `Route.LoadConfig` | app/api/compat/route.ts:10-12 | the key is trimmed and empty when neither variable is set; an unset model is the default, which is valid |
| `Route.Coerce` | app/api/compat/route.ts:122-129 | the coercion throws, with the TypeError's message, exactly when one of the eight values cannot be converted; MBTI types end up upper-case; falsy birth dates and MBTI types become "", a falsy blood type or birth time "미상" |
| `Route.BadModelDetail` | app/api/compat/route.ts:113-117 | the invalid-model detail quotes the model right after its ten-character lead-in and ends with the list of valid models |
| `Route.ServerError` | app/api/compat/route.ts:172-175 | the catch-all answer is a 500 whose detail is the error's message, or "서버 오류" when that is empty |
| `Route.Guard` | app/api/compat/route.ts:107-137 | the key is checked first, then the model, then the body (its read error becomes the 500 detail) and its coercion (a TypeError 500), then the four required inputs; a request proceeds exactly when all pass, with the coerced inputs |
| `Route.ParseOrEmpty` | app/api/compat/route.ts:163-169 | a reply that does not parse becomes `{}`; otherwise the parsed value |
| `Route.ReportFor` | app/api/compat/route.ts:159-171 | a report is built exactly when the envelope's text converts and every value `normalize` converts can be converted; it is then in range, and otherwise the error is the TypeError |
| `Route.IntendedReportFor` | app/api/compat/route.ts:162-171 | with the corrected normaliser, a report is built whenever the envelope's text converts, it is in range, and it agrees with the route's whenever that one exists |
| `Route.Answer` | app/api/compat/route.ts:85-100 | a failed connection or a status outside 2xx is a 500 with the upstream detail; a 2xx answer is a 200 with the report or a 500 with the error's message |
| `Route.Handle` | app/api/compat/route.ts:104-177 | a rejected request makes no call; an accepted one makes exactly one; the status is 200, 400 or 500, 200 exactly with a report, and that report is in range |
| `RouteProperties.WhitespaceGoogleKeyShadowsGemini` | app/api/compat/route.ts:10 | a non-empty Google key made only of white space shadows the Gemini key and leaves no key |
| `RouteProperties.PrefixedIsTrimmed` | app/api/compat/route.ts:12 | prefixing a trimmed name with "models/" keeps it trimmed |
| `RouteProperties.PrefixedModelName` | app/api/compat/route.ts:12 | "models/" followed by a trimmed name gives that name |
| `RouteProperties.NotGeminiIsInvalid` | app/api/compat/route.ts:16-21 | a name that does not start with "g" is not among the valid models |
| `RouteProperties.DoublePrefixIsKept` | app/api/compat/route.ts:12 | only one leading "models/" is removed |
| `RouteProperties.DoublePrefixIsInvalid` | app/api/compat/route.ts:12-21 | a doubled prefix leaves a name outside the whitelist |
| `RouteProperties.InvalidModelIsRefused` | app/api/compat/route.ts:113-118 | with a key set, a model outside the whitelist gets a 500 naming it and no call, whatever the body |
| `RouteProperties.DefaultModelIsValid` | app/api/compat/route.ts:12-21 | the default model is in the whitelist |
| `RouteProperties.KeyCheckedFirst` | app/api/compat/route.ts:107-112 | without a key the answer is the key 500 and no call, whatever the model or body |
| `RouteProperties.CoercedFields` | app/api/compat/route.ts:122-129 | each of the eight inputs is its fallback ("" or "미상") when falsy and its converted value otherwise, upper-cased for the MBTI and blood types |
| `RouteProperties.CoercedField` | app/api/compat/route.ts:122-129 | one coerced value that can be converted is its fallback when falsy and its (upper-cased where asked) conversion otherwise |
| `RouteProperties.MissingInputOfBody` | app/api/compat/route.ts:132-137 | a required input is missing exactly when a birth date or MBTI type is falsy or converts to the empty string |
| `RouteProperties.MissingMbtiIs400` | app/api/compat/route.ts:132-137 | a request without a man's MBTI gets the 400 and no call |
| `RouteProperties.UpstreamFailureIs500` | app/api/compat/route.ts:86-88 | a status outside 2xx gives a 500 with "Gemini", the status and the body, after exactly one call |
| `RouteProperties.UnreachableIs500` | app/api/compat/route.ts:172-175 | a failed connection gives a 500 with its message |
| `RouteProperties.UnparsableReplyGivesDefaults` | app/api/compat/route.ts:162-171 | a 2xx reply whose extracted text does not parse is answered 200 with the all-fallback report |
| `RouteProperties.FencedReplyEndToEnd` | app/api/compat/route.ts:92-171 | an envelope holding a fenced object with score 77 is answered 200 with score 77 and every other field at its fallback |
| `RouteProperties.ToStringKeyReplyIs500` | app/api/compat/route.ts:165-171 | as written, a parsed reply whose summary has a `toString` key is answered 500 with the TypeError's message |
| `RouteProperties.ToStringKeyReplyIntended` | app/api/compat/route.ts:168 | with the corrected normaliser, that reply yields a report with the fallback summary |

## Left out

- The `fetch` call itself, request headers, the generation settings and the URL built from the model and key (route.ts:64-83). The call is the `Inputs -> Reply` parameter. Its reply is taken as a status and a body text, or a connection error's message.
- The `MODEL || "gemini-1.5-flash"` fallback inside `callGemini` (route.ts:66). It only affects the URL, and a request reaches it only with a whitelisted, non-empty model.
- The prompt template (route.ts:139-156). It is string interpolation of the coerced inputs, so the call is modelled as a function of those inputs.
- `NextRequest`/`NextResponse` and the JSON body of the response. `req.json()` is a `Result<Json>`, and its failure message goes to the 500. The response is a status with a detail or a report. `ToJson` gives the report's serialised form.
- The GET health check (route.ts:180-182), and the `runtime`/`dynamic` exports.
- Reading `process.env` and the `DEBUG` logging. The environment is the `Env` value given to `LoadConfig`, and logging changes no result.
- `JSON.parse`, `Number` on strings, and `String` on numbers, arrays and objects. These are uninterpreted fields of `Runtime`. IEEE-754 arithmetic is not modelled: numbers are exact reals, and infinities and NaN are the `None` of `Number`.
- JsString.ToUpper: covers ASCII only. Other letters that `toUpperCase` would change (e.g. `ß` or accented Latin letters) are kept as they are.
- JsString.Trim: works on Dafny characters, not UTF-16 code units, like the rest of the string model.
- JsValue.ToText: throws only for an object with an own `toString` key, or an array that holds one at any depth. An own `valueOf` key alone does not make `String` or `Number` throw, because the inherited `toString` still succeeds. Every other object or array goes to the runtime's rendering.
- A numeric literal too large for a double, such as `{"score": 1e999}`, which `JSON.parse` turns into `Infinity` and `num` then replaces by its default (route.ts:36-37). A `JNum` holds an exact finite real, so the model cannot express that input; the same outcome arises in the model only through `Number` on a string.
- Retry and timeout: the code has none, so the model has none.
- Route.BadModelDetail: states where the model and the list of valid models sit in the detail, not that the list `Join(ValidModelList, ", ")` names exactly the members of `ValidModels`; the two constants are written out with the same four names in the same order.

## Findings

| source | as written | input that shows it | evidently intended | confidence | as-written member | corrected member |
|---|---|---|---|---|---|---|
| app/api/compat/route.ts:50-59 | `String(out?.summary \|\| …)` and the other conversions throw a TypeError for a parsed object with an own `toString` key, so `normalize` throws and the handler answers 500 | a model reply `{"summary": {"toString": 1}}` | the comment at line 168 says a reply never turns into a 500: an unconvertible field should take its fallback like a missing one | not executed | `NormalizeProperties.ToStringKeyBreaksNormalize` | `Normalizer.NormalizeSafe` |
| app/api/compat/route.ts:27-30 | the `$`-anchored `/\{[\s\S]*\}$/` matches only when the text ends in `}`, so an object followed by prose is returned with the prose, `JSON.parse` fails and the report falls back to the defaults | a model reply `{"score": 90} Hope this helps!` | the comments at lines 23 and 27 say the text is cut at the last `}` so that only the object is kept | not executed | `Extraction.TrailingProseDefeatsExtraction` | `Extraction.ExtractJsonIntended` |

The route-level consequence of the first row's as-written behaviour is
`RouteProperties.ToStringKeyReplyIs500`. `Handle` keeps the as-written
`normalize`, so that it describes what the route does today.
`Route.IntendedReportFor` is the corrected report step. It builds on
`Normalizer.NormalizeSafe` and is proved never to fail on a reply whose
envelope text converts (`RouteProperties.ToStringKeyReplyIntended` shows it
on the same input). Field by field, the corrected normaliser reads what
converts exactly as `normalize` does and gives the rest their fallbacks
(`NormalizeProperties.NormalizeSafeFields`,
`NormalizeProperties.NormalizeSafeInsights`,
`NormalizeProperties.FacetScoresSafeReads`,
`NormalizeProperties.ExplanationsSafeReads`).

For the second row, `Extraction.IntendedDropsTrailingProse` proves that the
corrected extraction yields exactly the object on the same input, and
`Extraction.ExtractionsAgree` proves that the two extractions agree on every
text the regex matches. The handler keeps the as-written `ExtractJson`.
