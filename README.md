# Food-analysis proxies: reply ladders, prompt builders, chunker and version bump

The repository holds several near-duplicate HTTP and Firebase proxies. A
mobile client sends a food photo, a food name or a food to be fixed. The proxy
asks OpenAI or DeepSeek's chat-completion API about it and turns the model's
reply text into JSON for the client. This project models in Dafny the part of
those proxies that decides what comes back:

- **the reply ladders**: five variants of "parse the reply whole, else find a
  JSON-looking span, clean it and parse that, else fall back". They are
  `parseResult` (functions/simple.js), the `/api/analyze-food` handlers
  (server.js, api-server/server.js), the inverted lazy-brace ladder
  (functions/v1-index.js), and the greedy-brace ladders of the DeepSeek
  handlers (index.js, server/index.js).
- **key-case normalisation** of the fix-food reply (index.js), an in-place
  update of the parsed object.
- **the prompt and description builders** (index.js, server/index.js). These
  are `+=` string builders with defaults, conditional lines and, in
  `/api/nutrition`, a wholesale reset.
- **the pseudo-streaming chunker** of `streamAIResponse` and the
  parse-or-raw rule of `getNutritionData` (functions/index.js).
- **small decisions**: the `data:` URI prefix of RFC 2397, the CORS allow-list
  and its origin callback, and `checkApiKey`.
- **the patch-version bump** of functions/deploy.js.

`JSON.parse` is a parameter `parse: Parser`. It is any function from text to a
value or a SyntaxError message, and every ladder property holds for all such
functions. Regexes are specified by index search. `/\{[\s\S]*\}/` runs from the
first `{` to the last `}`. `/{[\s\S]*?}/` runs from the first `{` to the next
`}`. The json-fence regex runs from the first "```json\n" to the first "\n```"
after it. The cleaner `replace(/```json\n|```/g, '')` is a left-to-right scan.
JavaScript truthiness is an explicit predicate on `Json`. A number is falsy
when it prints as "0" or "NaN".

Each handler is a function of three inputs: the request body (a `map<string,
Json>`), whether the API key is configured, and the outcome of the network call.
That outcome is a value (`FetchResult`, `AxiosResult`), or a function of the
text sent when the text sent matters (the prefixed image; the built prompt or
description). `Math.random` in the chunker becomes `draw`, which gives each
chunk index an offset in {0, 1, 2}.

The prompt and description builders and the chunker work by changing things
step by step. So do the key-case normalisation and the version bump. Each is a
method proved equal to a function, and the function's properties are lemmas:
- `Prompts.AppendLines`, `DeepseekService.DescribeCurrentFood`,
  `FixServer.BuildFixPrompt`, `FixServer.BuildNutritionPrompt`;
- `CloudFunctions.SplitIntoChunks`;
- `KeyCase.ReplyObject.NormaliseKeyCase`;
- `Deploy.PackageManifest.BumpPatch`.

The ladders and handlers are written as chains of `try`/`catch` and early
returns, so they are functions.

## Model

| member | source | states |
|---|---|---|
| SimpleFunctions.ParseOrThrow | functions/simple.js:54 | `JSON.parse` as a statement returns exactly when the parse succeeds, with its value, and otherwise throws its message |
| SimpleFunctions.ParseResult | functions/simple.js:45-58 | a reply that parses whole is returned unchanged. With no fence pair and no `{` before a `}` it is `{text: content}`. Otherwise a matched pattern decides: the cleaned match's value comes back, or its SyntaxError is thrown, and with no match the reply comes back as `{text: content}`. It throws exactly when the whole parse fails, a pattern matches and the cleaned match fails to parse |
| SimpleFunctions.BraceCandidateWithoutFence | functions/simple.js:51 | without "```" there is a candidate exactly when some `}` follows a `{`, and it is the span from the first `{` to the last `}` |
| SimpleFunctions.FencedReply | functions/simple.js:51-54 | for P + "```json\n" + X + "\n```" + S with no backtick in P or X, the result is parsing `X.trim()`, whatever braces P and S hold: the fence is tried before the brace span |
| SimpleFunctions.SpacedFenceKeepsTag | functions/simple.js:51-54 | a fence opened "```json " loses only its backticks, so the text parsed is `("json " + X).trim()` and starts with "json" |
| Patterns.GreedyBraceSpan | server.js:145 | the match starts at the first `{` and ends at the last `}`. There is none exactly when no `}` follows a `{` |
| Patterns.LazyBraceSpan | functions/v1-index.js:86 | the match starts at the first `{` and ends at the first `}` after it. There is none exactly when no `}` follows a `{` |
| Patterns.JsonFenceSpan | server.js:144 | the match opens at the first "```json\n" and closes at the first "\n```" starting at or after its end. There is none exactly when no "\n```" starts at or after the end of a "```json\n" |
| Patterns.AnyFenceSpan | functions/simple.js:51 | the match opens at the first "```" and closes at the next "```" starting at least three characters on |
| Patterns.AnyFenceSpanNone | functions/simple.js:51 | there is no match exactly when no "```" starts three or more characters after another |
| Patterns.StripPlainPrefix | api-server/server.js:170 | the cleaner passes backtick-free text through unchanged and goes on scanning after it |
| Patterns.CleanJsonFenceBlock | server.js:148 | cleaning "```json\n" + X + "\n```" with no backtick in X gives `X.trim()` |
| Patterns.StripSpacedJsonFence | functions/simple.js:53 | "```json " + X + "```" strips to "json " + X: only the backticks go |
| Patterns.JsonFenceInContext | server.js:144 | in P + "```json\n" + X + "\n```" + S, with no opening fence in P and no backtick in X, the fence regex matches exactly the block |
| Patterns.AnyFenceInContext | functions/simple.js:51 | in the same text with no backtick in P, the fence regex of functions/simple.js also matches exactly the block |
| Patterns.AnyFenceSpaced | functions/simple.js:51 | a fence opened "```json " still spans the whole "```json " + X + "```" |
| JsText.Trim | server.js:148 | `trim` keeps a slice of its input, cutting only white space off either end, and the slice neither starts nor ends with white space |
| JsText.TrimIgnoresSurroundingSpace | functions/simple.js:53 | white space around a text does not survive `trim` |
| JsText.TrimIdempotent | functions/simple.js:53 | trimming twice is trimming once |
| JsText.Split | api-server/server.js:32 | `split` gives at least one piece and no piece holds the separator |
| JsText.JoinSplit | api-server/server.js:32 | joining the pieces of `split` with the separator gives back the text |
| JsText.SplitJoin | functions/deploy.js:16-18 | `split` undoes `join` when no piece holds the separator |
| JsText.ParseIntOfIntToString | functions/deploy.js:17 | `parseInt(String(n) + t, 10)` is n when t does not start with a digit |
| Upstream.StringMethodError | server.js:60 | a string method call throws exactly when the receiver is not a string |
| Upstream.ChoiceMessage | functions/index.js:76-80 | the guard refuses exactly when `choices`, `choices[0]` or `message` is falsy, so a body with a non-empty `choices` array whose first element has a truthy `message` passes with that message |
| Upstream.ChoiceContent | server.js:118-129 | the guard refuses exactly when `choices`, `choices[0]`, `message` or `content` is falsy. A result is always truthy, and a body with a non-empty `choices` array whose first message has a truthy `content` passes with that content |
| Upstream.AnswerContent | index.js:65 | the unguarded read gives the content of a well-formed answer and throws reading `choices` of a null body |
| AnalyzeServer.ExtractData | server.js:133-171 | a reply that parses whole is the data. When the candidate (json fence, else greedy brace span) cleaned parses, that value is the data. Every other case gives `{text: content}` |
| AnalyzeServer.FencedData | server.js:144-148 | for P + "```json\n" + X + "\n```" + S, with no opening fence in P and no backtick in X, a reply that does not parse whole gives what `X.trim()` parses to, whatever braces P and S hold. If `X.trim()` does not parse either, the data is `{text: c}` with c the whole reply |
| AnalyzeServer.BraceFallback | server.js:145 | with no "```json\n" the candidate is the greedy span, and it exists exactly when some `}` follows a `{` |
| AnalyzeServer.FromUpstream | server.js:106-171 | a failed status answers with that status and "OpenAI API error: N". A rejected call and a null body end in the outer catch's 500. Content failing the guard gives 500 "Invalid response from OpenAI". A string content always succeeds through the ladder, and any other content is printed and parsed whole or ends in the outer 500 |
| AnalyzeServer.DataFromContent | server.js:133-177 | a string content goes through the ladder. The only failure is the outer 500 |
| AnalyzeServer.AnalyzeFood | server.js:45-180 | a missing image is refused with 400 before anything else. A non-string image breaks the log line (500). A missing key gives 500. Otherwise the reply follows the upstream outcome |
| ApiServer.AllowedOrigins | api-server/server.js:31-33 | ALLOWED_ORIGINS split on ',' with nothing trimmed (set and non-empty), else ["http://localhost:3000"]. The list is never empty and no entry holds a comma |
| ApiServer.OriginDecision | api-server/server.js:37-47 | no Origin is always allowed. Any other Origin is allowed exactly when it equals a list entry. A refusal carries the CORS message |
| ApiServer.OriginUnderEnvironment | api-server/server.js:31-46 | under ALLOWED_ORIGINS = E a non-empty Origin is allowed exactly when it is one of E's comma-separated pieces, and without E exactly when it is the localhost default |
| ApiServer.SpacesAreKept | api-server/server.js:32-42 | with "a, b" listed, " b" is allowed and "b" is not |
| ApiServer.CheckApiKey | api-server/server.js:56-63 | the route runs exactly when the key is set. Otherwise the answer is 500 with the configuration message |
| ApiServer.ReplyFromContent | api-server/server.js:151-193 | a string content goes through the shared ladder. A non-string content breaks the `substring` log line (500) |
| ApiServer.AnalyzeFood | api-server/server.js:78-202 | without the key the answer is 500 even with no image. Then: 400 for a missing image, the upstream status for a failed call, the outer 500 for a rejected call or a null body, 500 "Invalid response from OpenAI" when the guard fails, the outer 500 for non-string content (the `substring` log line), and success through the shared ladder for every string reply that passes the guard |
| V1Functions.WithDataPrefix | functions/v1-index.js:20-22 | an image starting with "data:" is kept and any other gets "data:image/jpeg;base64," in front. The result always starts with "data:" |
| V1Functions.WithDataPrefixIdempotent | functions/v1-index.js:20-22 | prefixing twice is prefixing once |
| V1Functions.ExtractAnalysis | functions/v1-index.js:83-114 | a matched candidate (json fence, else lazy brace) decides alone: its parse is the result, or "Failed to parse analysis results". Only with no match is the reply parsed whole, else `{rawText: content}` |
| V1Functions.LazyBraceCutsNestedObject | functions/v1-index.js:86 | for "{" + X + "}" + Y + "}" with no `}` in X and no json fence, the candidate is "{" + X + "}", cut before the rest of the nested object |
| V1Functions.FromBody | functions/v1-index.js:65-114 | a null body throws reading `choices`. A failed guard gives "Invalid response from image analysis service". A string content goes to the ladder, and a non-string one gives the parse failure |
| V1Functions.AnalyzeFoodImage | functions/v1-index.js:12-127 | a falsy payload or missing image gives invalid-argument "No image provided". A non-string image has no `startsWith`. The service is asked about the prefixed image, and its failures are wrapped as "internal" errors |
| GreedyLadder.BraceStep | index.js:81-97 | the brace step never counts as direct. It finds no object exactly when no `}` follows a `{`. An extracted value parses from the greedy span as matched. A failure keeps the direct parse's error |
| GreedyLadder.ParseOrGreedyBrace | index.js:67-97 | the result is direct exactly when the reply parses whole, with that value. Otherwise it is the brace step |
| GreedyLadder.BracedReply | index.js:81-86 | for P + "{" + X + "}" + S with no `{` in P and no `}` in S, the span is "{" + X + "}" whatever braces X holds, and it alone decides a reply that does not parse whole |
| KeyCase.Get | index.js:271 | an absent key reads as undefined and a present one as its value |
| KeyCase.MoveKeyEffect | index.js:271-274 | one block moves the value to the lower-case key and deletes the capitalised one exactly when the capitalised value is truthy and the lower-case one is not. Otherwise it changes nothing. Other keys never change, and a second run does nothing |
| KeyCase.MoveAllOutside | index.js:271-299 | a run of blocks over disjoint pairs leaves every key outside the pairs as it was |
| KeyCase.MoveAllPair | index.js:271-299 | in a run of blocks over disjoint pairs, each pair ends as its own block leaves it |
| KeyCase.MoveAllIdempotent | index.js:271-299 | running the blocks a second time changes nothing |
| KeyCase.KeyPairsDisjoint | index.js:271-299 | no key appears in two of the six pairs, nor twice in one |
| KeyCase.NormalisedPair | index.js:271-299 | for each of the six pairs, a truthy capitalised value over a falsy lower-case one moves and the capitalised key goes. Otherwise both keys are kept, so a truthy lower-case value is never overwritten and a falsy capitalised one is neither moved nor deleted |
| KeyCase.NormalisedOutside | index.js:271-299 | keys outside the six pairs are untouched |
| KeyCase.NormalisedIdempotent | index.js:271-299 | normalising twice is normalising once |
| KeyCase.ReplyObject.MoveKeyCase | index.js:271-274 | the `if` block updates the object's fields in place to the one-block result |
| KeyCase.ReplyObject.NormaliseKeyCase | index.js:271-299 | the six blocks in order update the fields in place to the normalised object |
| Prompts.LinesOf | index.js:222-226 | one line per element, in input order. There are none exactly when some element is null, since reading `null.name` throws |
| Prompts.IngredientArray | index.js:222 | there are ingredients exactly when `ingredients` is an array |
| Prompts.IngredientBlock | index.js:222-226 | no ingredient lines when `ingredients` is not an array, else one per element |
| Prompts.AppendLines | index.js:223-225 | the loop appends each element's line and a newline, and throws exactly when the elements hold a null |
| Prompts.AppendIngredientBlock | index.js:222-226 | the guarded loop appends exactly the ingredient lines, and throws exactly when they cannot be built |
| Prompts.IngredientSection | server/index.js:35-40 | the "Ingredients:" header and one line per element only when `ingredients` is an array. Nothing otherwise, and a throw on a null element |
| Prompts.AppendIngredientSection | server/index.js:35-40 | the `forEach` block appends exactly that section's lines |
| DeepseekService.ErrorStatus | index.js:103 | `error.response?.status \|\| 500` is the upstream status when there is a non-zero one, else 500 |
| DeepseekService.ReadAnswer | index.js:65 | an axios error answers with its status (or 500) and message. A malformed answer throws a TypeError (500). Otherwise the content is read as text |
| DeepseekService.Analyze | index.js:19-109 | a missing prompt gives 400. The reply succeeds exactly when the ladder yields a value. A direct parse carries the request id and `operation_type \|\| 'general'`. A malformed answer is refused with its TypeError. An extracted value is flagged and carries neither. A braced span that does not parse gives 500 "Could not parse response as JSON", and a reply with no braced span gives 500 "Could not extract JSON from response" |
| DeepseekService.Nutrition | index.js:112-197 | a missing food_name or serving_size gives 400. A malformed answer is refused with its TypeError (500). Both successful steps answer with the request id and no extraction flag. A failed ladder gives 500 with its message |
| DeepseekService.DescriptionLines | index.js:215-229 | the description lines fail exactly when `ingredients` is an array holding a null element |
| DeepseekService.DescriptionIngredients | index.js:222-226 | after the six opening lines come one line per element, in order, only when `ingredients` is an array. Two lines follow them |
| DeepseekService.DescriptionFrame | index.js:215-229 | the lines open with the name and the calories, "Ingredients:" is the sixth, and they close with an empty line and the instruction with `operation_type \|\| 'UNKNOWN'` |
| DeepseekService.DescribeTotals | index.js:215-220 | the first six `+=` give the six head lines, each ended by a newline |
| DeepseekService.DescribeCurrentFood | index.js:215-229 | the `+=` builder gives the description lines joined by newlines, and throws exactly when they cannot be built |
| DeepseekService.DescriptionSplits | index.js:215-229 | when no field holds a newline, the description splits back into its lines |
| DeepseekService.Normalised | index.js:268-299 | an object has its key case normalised and any other value is left as it is |
| DeepseekService.FixLadder | index.js:266-316 | a direct parse is normalised. A direct `null` throws at `.Ingredients` and goes to the brace step. An extracted object keeps its casing |
| DeepseekService.FixDescription | index.js:205-229 | a description is built exactly when the three required fields are present and no ingredient is null |
| DeepseekService.FixFood | index.js:200-335 | a missing field gives 400 and a null ingredient gives 500. The service is asked about the built description and its refusal is passed on. The reply succeeds exactly when the fix ladder yields a value, and then carries that value, the request id and `operation_type \|\| 'general'`. A failed ladder gives 500 with its message |
| DeepseekService.CasingDependsOnPath | index.js:266-312 | a reply whose `Name` is truthy and has no `name`: parsed whole, the value comes back under `name`. Wrapped in prose, the brace span comes back with `Name` as it was |
| FixServer.TotalLineKey | server/index.js:178-181 | characters 6 to 8 of a total line are the first three letters of its key |
| FixServer.OperationLines | server/index.js:44-46 | the operation line is present exactly when `operation_type` is truthy |
| FixServer.DefaultsForMissing | server/index.js:29-33 | a missing or falsy name prints as "Unknown" and a missing or falsy total as "0". Truthy ones print as they are |
| FixServer.FixInstruction | server/index.js:43 | `instructions`, else `query`, else "Analyze and improve this food" |
| FixServer.FixPromptFood | server/index.js:26-46 | without `food_data` only the opening, the instruction and the operation line are given. With it, its five lines and then its ingredient section follow the opening, and a null ingredient throws |
| FixServer.FixPromptEnding | server/index.js:43-48 | the prompt lines end with the instruction, then the operation line when there is one, a blank line and the request for the schema |
| FixServer.AppendFood | server/index.js:28-41 | the `food_data` block appends nothing without `food_data`, else its default lines and its ingredient section, and throws exactly when that section cannot be built |
| FixServer.AppendDefaults | server/index.js:29-33 | the five `+=` append exactly the default lines |
| FixServer.AppendInstruction | server/index.js:43-46 | the instruction `+=` and the conditional operation line append exactly those lines |
| FixServer.AppendSchema | server/index.js:48-74 | the last two `+=` close the lines with the request line, a newline and the schema |
| FixServer.BuildFixPrompt | server/index.js:26-74 | the `+=` builder gives the fix-food prompt, and throws exactly when an ingredient is null |
| FixServer.FixPromptSplits | server/index.js:26-74 | when no line holds a newline, the prompt splits into its lines followed by the lines of the schema |
| FixServer.TruthyTotal | server/index.js:178 | one total line when that total is truthy, else none |
| FixServer.TruthyTotalsByKeys | server/index.js:178-181 | the four `if`s are the conditional lines of calories, protein, fat and carbs, in that order |
| FixServer.PrintedTotalIsTruthy | server/index.js:178-181 | every printed total line belongs to a truthy total |
| FixServer.TruthyTotalIsPrinted | server/index.js:178-181 | every truthy total is printed |
| FixServer.TotalsOnlyWhenTruthy | server/index.js:178-181 | a total is printed exactly when it is truthy: a 0, "" or missing total gives no line that even starts like its line |
| FixServer.ModifyLinesShape | server/index.js:174-195 | the rebuilt prompt opens with the fix-food opening and the name, else "Unknown". Its instruction is `instructions` or the default with no query fallback. It ends with the request for the schema, and fails exactly when an ingredient is null |
| FixServer.BaseLines | server/index.js:163-169 | the opening, then the name line when the name is truthy and the serving-size line last when that is truthy |
| FixServer.AppendTruthyTotal | server/index.js:178 | one `if` appends exactly its conditional line |
| FixServer.AppendTruthyTotals | server/index.js:178-181 | the four `if`s append exactly the truthy totals |
| FixServer.BuildNutritionPrompt | server/index.js:164-234 | the `+=` builder with its reset gives the nutrition prompt, and throws exactly when it cannot be built |
| FixServer.BuildBasePrompt | server/index.js:163-169 | the first three steps give the base lines joined by newlines |
| FixServer.AppendQuery | server/index.js:223-232 | the query branch appends the query line, a blank line, the request line and the query schema |
| FixServer.ModificationPrompt | server/index.js:174-221 | the branch for `current_data` gives the rebuilt lines and the schema, and throws exactly when they cannot be built |
| FixServer.ModificationIgnoresBase | server/index.js:173-176 | with `current_data` the prompt does not depend on `serving_size` or `query`: the earlier lines are discarded |
| FixServer.ModificationOpening | server/index.js:174-176 | with `current_data` the prompt opens with the fix-food opening and the name line, not with the nutrition opening |
| FixServer.QueryBranch | server/index.js:223-234 | without `current_data` and with a query, the prompt is the base lines, the query line, a blank line, the request line and the query schema |
| FixServer.ReplyFromText | server/index.js:108-141 | a direct parse or an extracted greedy span is the data. A failure happens exactly when neither parses. It keeps the raw text and cites the first parse's error, whichever step failed |
| FixServer.Relay | server/index.js:104-152 | a prompt that could not be built or a failed call answers through the outer catch with its message. A string content goes through the ladder, and a non-string one breaks the `substring` log line. A parse failure carries text that does not parse and cites its error, and an answer is a value some text parses to |
| FixServer.FixFood | server/index.js:19-154 | the service is asked about the built fix-food prompt. A call failure, a null ingredient, a malformed answer and a non-string content (the `substring` log line) answer "Error processing request: ...". A string content goes through the ladder |
| FixServer.Nutrition | server/index.js:157-314 | the same relay for the nutrition prompt: a call failure, a null ingredient, a malformed answer and a non-string content answer "Error processing request: ...", and a string content goes through the ladder |
| CloudFunctions.SplitIntoChunks | functions/index.js:83-90 | the loop produces exactly the chunks of the content, chunk k being the window of words from 4k |
| CloudFunctions.ChunkCount | functions/index.js:84-87 | there are ceil(n/4) chunks for n space-separated words, and at least one, since empty content is one word |
| CloudFunctions.ChunkShape | functions/index.js:87-89 | chunk k runs from word 4k to min(4k+3+r, n), so it is non-empty and ends at most at n. It is followed by a space exactly when words remain after its end |
| CloudFunctions.ChunkWords | functions/index.js:87-89 | a chunk splits back into exactly its words, plus an empty piece after its trailing space |
| CloudFunctions.EmptyContent | functions/index.js:84-89 | empty content gives one empty chunk |
| CloudFunctions.WholeCover | functions/index.js:87-89 | when every offset is 1 the chunks put together give back the content |
| CloudFunctions.ZeroOffsetDrops | functions/index.js:87-88 | an offset of 0 on chunk k leaves word 4k+3 in no chunk |
| CloudFunctions.TwoOffsetRepeats | functions/index.js:87-88 | an offset of 2 on chunk k puts word 4k+4 in chunk k as well as in chunk k+1 |
| CloudFunctions.LastWordDropped | functions/index.js:87-89 | with n a multiple of 4 and a last offset of 0, there are n/4 chunks and the last holds three words and a trailing space, so the last word is lost |
| CloudFunctions.MessagesCheck | functions/index.js:41-43 | a non-null payload passes exactly when `messages` is an array, else "Messages array is required". A null payload throws reading `messages` |
| CloudFunctions.StreamAIResponse | functions/index.js:38-104 | the messages check, then "API key not configured", then the call's failures, the guard's "Invalid response from OpenAI" and a non-string content. Otherwise the chunks of the content with `fullContent` the content untouched |
| CloudFunctions.GetNutritionData | functions/index.js:165-235 | the messages check, then "DeepSeek API key is required" for a falsy client key, then the call's failures. A content that parses gives `nutritionData`, and any other succeeds with the content untouched |
| CloudFunctions.NoExtraction | functions/index.js:212-227 | a string reply that does not parse whole comes back raw, with no search for an object inside it |
| Deploy.NextPatch | functions/deploy.js:17 | the new patch piece never holds a dot |
| Deploy.WithPatch | functions/deploy.js:17 | assigning the third piece leaves at least three pieces: the holes of a shorter array are padded |
| Deploy.BumpedPieces | functions/deploy.js:16-18 | the new version splits back into the pieces that were joined |
| Deploy.OnlyPatchChanges | functions/deploy.js:16-18 | with at least three pieces the count is kept and only the third piece can change |
| Deploy.NumericPatch | functions/deploy.js:17 | a patch that reads as the number p becomes the decimal text of p+1 |
| Deploy.NaNPatch | functions/deploy.js:17 | a patch with no leading number becomes "NaN" |
| Deploy.ShortVersion | functions/deploy.js:16-18 | with fewer than three pieces a third is added as "NaN", with an empty second piece when there was only one |
| Deploy.SuffixDropped | functions/deploy.js:17 | only the leading number counts: "a.b.2-beta" becomes "a.b.3" |
| Deploy.PackageManifest.BumpPatch | functions/deploy.js:16-18 | the manifest's `version` field is updated in place to the bumped version |

## Left out

- `JSON.parse` itself: the RFC 8259 grammar, key order, duplicate keys and number conversion. The parser is a parameter, and each property is stated for every parser.
- JavaScript numbers: a `Json` number is kept as its printed text. `String(n)` and `parseInt` work on unbounded integers. The 2^53 precision limit and exponent notation are not modelled.
- Strings are sequences of `char`. UTF-16 surrogate pairs and `length` in code units are not modelled.
- The network calls (`fetch`, `axios.post`), their timeouts and the request bodies sent. Each call's outcome is an input. For the DeepSeek fix and nutrition handlers it is a function of the prompt or description sent.
- The literal prompt wording: system and user prompt texts, and the user-message template around the index.js description. These are fixed texts, while the schemas in the server/index.js prompts are kept as constants.
- Environment and configuration reads (`process.env.*`, `functions.config()`). They are inputs.
- Logging. A log line is modelled only where it throws: `image.substring` in server.js and api-server/server.js, `content.substring` in api-server/server.js, and `resultContent.substring` in server/index.js.
- Express and Firebase wiring: middleware order other than `checkApiKey`, the rate limiter, `express.json` limits, `app.listen`, the health routes and the `unhandledRejection` handler.
- The `details` field of the DeepSeek error answers: `error.response?.data` in index.js and `error.response.data` in server/index.js.
- `Math.random` in the chunker. It is replaced by `draw`, and nothing is assumed about its distribution.
- In functions/index.js: `analyzeFoodImage` (a thin wrapper around `analyzeFoodImageImpl`) and `getAIResponse`, which are not part of this model. In functions/simple.js: `analyzeFoodImageImpl` and `pingFunction`, which only make the network call or return a constant.
- In functions/deploy.js: the `package.json` read and write and the `execSync` deploy. A `version` that is not a string (where `split` throws) is not modelled, since the manifest holds a string.
- fix-script.js, direct-fix.js, fix-server.js, api-server/test.js, functions/simpleDeploy.js and server/proxy.js are not part of this model. They print strings, start servers, run deploy commands or make test calls.
- DeepseekService.Analyze, DeepseekService.Nutrition: the service's answer is an input value, not a function of the prompt sent, because their prompts are fixed templates around the request fields.
- CloudFunctions.ChunkShape: the trailing-space property is stated as "a space is appended exactly when words remain". The text may already end with a space, because a word can be empty.
