# Coin and bill value estimator — a Dafny model

This project models the logic at the core of a coin and bank-note value
estimator:

- the `POST /api/analyze-currency` handler of the Express backend, as a
  pure function from the request body to the HTTP response it writes. It
  checks the image, picks one of three Spanish prompt templates, pulls the
  JSON text out of the vision model's free-form reply and maps every thrown
  error to a status;
- the React component that calls the handler: its two colour tables, and
  the state it keeps across an upload, the analysis request, the mode
  buttons and the "Subir Otra" (upload another) button.

The vision model and `JSON.parse` are parameters of the handler model. The
model is a function `ModelRequest -> ModelOutcome` that sees the one request
the handler sends. The parser is a function `string -> Parsed<J>`, where `J`
stands for any parsed JSON value. The handler does not check the parsed
object against the schema its prompt describes, so the model does not
either. The prompt's schema is only a request to the model, and whatever
parses is answered with 200.

Modules:

- `Common`: `Option`, `Result`, and the JavaScript string operations used
  (`startsWith`, `includes`, `indexOf`, `lastIndexOf`).
- `Prompts`: the three templates and how one is selected.
- `Extraction`: the two regular expressions and the `jsonMatch[1] || jsonMatch[0]` choice.
- `AnalyzeEndpoint`: the handler itself.
- `Estimator`: the component. The colour lookups are functions; the React
  state is the class `CurrencyValueEstimator`.
- `Integration`: the component and the handler composed.

The regular expressions are stated declaratively:

- A fence match is the leftmost start that admits a match, then the
  shortest interior, because `*?` is lazy.
- A brace span runs from the first `{` to the last `}`, because `*` is greedy.

The functions that compute them are proved to return exactly those matches.

## Model

| member | source | states |
|---|---|---|
| Common.IndexFrom | backend/server.js:207 | the first occurrence of a pattern at or after an index, or none at all after it (what the lazy regex engine scans for) |
| Common.StartsWith | backend/server.js:55 | `startsWith` holds exactly when the prefix is no longer than the string and agrees with it character by character |
| Common.Includes | src/CoinValueEstimator.js:62 | `includes` is true exactly when the pattern occurs somewhere |
| Common.IndexOfChar | backend/server.js:209 | the first index holding a character at or after a start, or none |
| Common.LastIndexBelow | backend/server.js:209 | the last index below a bound holding a character, or none |
| Prompts.SelectTemplate | backend/server.js:48-180 | `coin` selects the coin template and `bill` the bill template, each exactly; every other value, an absent one (default `auto`) included, selects the auto template, so no mode is an error |
| Prompts.PromptText | backend/server.js:64-180 | every template starts with "IMPORTANTE: Responde ÚNICAMENTE en español." and holds its own `"currencyType"` schema line |
| Prompts.CoinPromptFixesCoin | backend/server.js:69 | the coin template fixes `"currencyType": "coin"` |
| Prompts.BillPromptFixesBill | backend/server.js:104 | the bill template fixes `"currencyType": "bill"` |
| Prompts.AutoPromptOffersBoth | backend/server.js:144 | the auto template offers `"coin" o "bill"` |
| Prompts.SelectedTypeLine | backend/server.js:48-144 | the `"currencyType"` line of the template a mode selects is `coin` for `coin`, `bill` for `bill`, and the open choice for any other mode |
| Extraction.FindFence | backend/server.js:207 | the match of the fence expression is the leftmost fence with the shortest interior, and no match means no fence exists at all |
| Extraction.FindBraceSpan | backend/server.js:209 | the match of the brace expression runs from the first `{` to the last `}`, and no match means no `{` precedes any `}` |
| Extraction.FencedText | backend/server.js:213 | a fence hands on its interior when that is non-empty, and otherwise the whole match, which is then exactly the opening and closing fence; the text is never empty |
| Extraction.ExtractJson | backend/server.js:206-213 | the text handed to `JSON.parse` is a substring of the reply, and there is none exactly when the reply has neither a fence nor a `{` before a `}` |
| Extraction.FenceMatchUnique | backend/server.js:207 | the leftmost-shortest fence match is unique |
| Extraction.BraceSpanUnique | backend/server.js:209 | the leftmost-greedy brace span is unique |
| Extraction.FencePreferred | backend/server.js:207-213 | a fence's interior is used whenever a fence exists, even when a brace span does too |
| Extraction.BraceFallback | backend/server.js:208-213 | without a fence, the text runs from the first `{` to the last `}` inclusive |
| Extraction.FencedRoundTrip | backend/server.js:207-213 | a non-empty text without a closing fence, wrapped in a fence and followed by anything, is extracted unchanged |
| Extraction.EmptyFenceFallsBack | backend/server.js:213 | an empty fence interior is falsy, so the whole fenced match is handed on |
| Extraction.BareRoundTrip | backend/server.js:208-213 | a bare object without an opening fence is extracted whole |
| Extraction.FencedAndBareAgree | backend/server.js:206-213 | an object sent fenced or bare is extracted as the same text |
| Extraction.BraceExtractionIdempotent | backend/server.js:208-213 | extracting again from an extracted brace span returns it unchanged |
| AnalyzeEndpoint.ValidateImageData | backend/server.js:50-57 | a missing or empty image gives "No image data provided", and this is checked before the prefix; a non-empty image without `data:image/` gives the invalid-format message; otherwise the image passes unchanged |
| AnalyzeEndpoint.SentRequest | backend/server.js:182-202 | a request goes to the model exactly when validation passes, and it carries the image as its URL, the selected template, `gpt-4o` and 2000 tokens |
| AnalyzeEndpoint.ErrorResponse | backend/server.js:225-246 | status 401 maps to 401 with the API-key message and 429 to 429 with the rate-limit message, each in both directions; other statuses from 400 to 499 map to 400 with "API Error: " and the message; everything else, no status included, maps to 500 with the message, or the default message when there is none; the error text is never empty |
| AnalyzeEndpoint.RespondToReply | backend/server.js:204-223 | a reply with no extractable text gives 500 "Could not parse AI response"; text that parses gives 200 with the parsed value; text the parser rejects gives 500 with the parser's message, or the default message when it is empty |
| AnalyzeEndpoint.Analyze | backend/server.js:46-246 | the status is one of 200, 400, 401, 429 and 500; 200 comes exactly with a success body; failures carry a non-empty message; both validation failures give their 400 |
| AnalyzeEndpoint.ProviderSeesOnlySentRequest | backend/server.js:50-57 | the model is consulted only through the one request sent, and not at all when validation fails |
| AnalyzeEndpoint.UnknownModeIsAuto | backend/server.js:48-180 | any mode other than `coin` and `bill` is answered exactly as an absent mode or `auto` |
| AnalyzeEndpoint.SucceedsExactlyWhenParsed | backend/server.js:204-220 | 200 comes exactly when the image passes, the model replies, text is extracted and it parses; the data is then the parsed value |
| AnalyzeEndpoint.UnparseableReplyIs500 | backend/server.js:212-245 | a reply with neither a fence nor a brace span gives 500 "Could not parse AI response" |
| AnalyzeEndpoint.FencedOrBareSameResponse | backend/server.js:206-220 | an object sent fenced or bare gets the same response |
| AnalyzeEndpoint.ProviderErrorStatus | backend/server.js:225-246 | an error thrown by the model call gives 401 with the API-key message, 429 with the rate-limit message, 400 with "API Error: " and its message for other 4xx statuses, and otherwise 500 with its message, or the default message when it is empty |
| AnalyzeEndpoint.ParseFailureIs500 | backend/server.js:214-245 | extracted text that `JSON.parse` rejects gives 500 with the parser's message, or the default message when it is empty |
| Estimator.RarityColor | src/CoinValueEstimator.js:72-83 | a rarity the table lists gets the table's class, and any other gets `bg-gray-600` |
| Estimator.DemandColor | src/CoinValueEstimator.js:85-93 | a demand the table lists gets the table's class, and any other gets `text-gray-400` |
| Estimator.RarityColorTable | src/CoinValueEstimator.js:72-83 | each of the seven English rarity tiers gets its fixed class, and any other string gets `bg-gray-600` |
| Estimator.RarityColorsDistinct | src/CoinValueEstimator.js:73-81 | the tiers other than "Very Common" get pairwise different classes, none of them the default gray |
| Estimator.DemandColorTable | src/CoinValueEstimator.js:85-93 | each of the four demand tiers gets its fixed class, and any other string gets `text-gray-400` |
| Estimator.ErrorText | src/CoinValueEstimator.js:61-66 | a message containing "fetch" gives the connection message; any other message is shown as it is, and an empty one gives the fallback text; the text is never empty |
| Estimator.ThrownMessage | src/CoinValueEstimator.js:36-58 | the `try` block completes exactly on an ok, readable response with `success`; otherwise it throws the rejection's message, the unreadable body's message, the non-ok body's `error` or "Failed to analyze image", or "Failed to analyze coin" when `success` is false |
| Estimator.OwnMessagesShownAsIs | src/CoinValueEstimator.js:49-66 | "Failed to analyze image" and "Failed to analyze coin" do not mention `fetch`, so they are shown as they are |
| Estimator.Settle | src/CoinValueEstimator.js:36-66 | a result is shown exactly when the response is ok, its body is readable and `success` is true, and it is the body's `data`; a rejected `fetch` and an unreadable body show their message through the error-text rule, a non-ok body its `error` through that rule or "Failed to analyze image" when it has none, and an ok body without `success` "Failed to analyze coin" |
| Estimator.UnreachableServerShowsConnectionMessage | src/CoinValueEstimator.js:36-63 | a `fetch` failure whose message names `fetch` shows the connection message |
| Estimator.CurrencyValueEstimator.constructor | src/CoinValueEstimator.js:5-9 | nothing is shown, the spinner is down and the mode is `auto` |
| Estimator.CurrencyValueEstimator.SelectCurrencyType | src/CoinValueEstimator.js:155-181 | a mode button sets the mode and nothing else |
| Estimator.CurrencyValueEstimator.StartAnalysis | src/CoinValueEstimator.js:25-45 | starting an analysis raises the spinner and clears result and error before the request, which carries the image and the current mode |
| Estimator.CurrencyValueEstimator.FinishAnalysis | src/CoinValueEstimator.js:47-69 | the spinner is down whatever the outcome; a result is set only on an ok response with `success`; otherwise the error text is set and the result is left alone |
| Estimator.CurrencyValueEstimator.HandleImageUpload | src/CoinValueEstimator.js:13-23 | an upload without a file changes nothing; with a file, its data URL becomes the image and an analysis starts |
| Estimator.CurrencyValueEstimator.Reset | src/CoinValueEstimator.js:273 | "Subir Otra" drops the image and the result and leaves the error, the spinner and the mode unchanged |
| Estimator.AnalyseOnce | src/CoinValueEstimator.js:25-69 | an analysis that runs alone ends with the spinner down and never with both `result` and `error` set; it sets an error exactly when the outcome settles as one, and otherwise sets a result exactly when the body carries `data`, so a success body without `data` sets neither |
| Estimator.StaleResultAfterReset | src/CoinValueEstimator.js:13-69 | pressing "Subir Otra" during an analysis and uploading again lets the first answer land beside the second image, with the spinner down while the second request is still out |
| Integration.ToFetchOutcome | backend/server.js:217-245 | the handler's response reaches the component with `ok` exactly for a 2xx status, `success` exactly for a success body, and its data or its error |
| Integration.ScreenFollowsResponse | src/CoinValueEstimator.js:47-66 | whatever the handler answers, the component shows its data on success and otherwise the handler's error message through the error-text rule |
| Integration.PostedModeSelectsTemplate | src/CoinValueEstimator.js:40-43 | the mode the component posts, always one of its three buttons, selects the template of the same name |
| Integration.SpanishTiersGetDefault | backend/server.js:74-161 | every Spanish rarity and demand tier the prompts ask the model for is drawn in the default gray, because the component's tables are keyed by English tiers |
| Integration.UploadAndAnalyse | src/CoinValueEstimator.js:13-69 | one upload through the handler ends with the spinner down and the handler's data as the result, or its error text as the error, never both (the handler's success body always carries data) |

## Left out

- The Express setup: CORS, body limits, static files, the health route, the catch-all and the 404 and error middleware, and `listen`. These are transport plumbing.
- The `multer` configuration. The analysis route does not use it.
- The call to the OpenAI API is the `provider` parameter. Failures without a status (network errors) are `ApiError` with no status.
- A reply without `choices[0]`, or with null content, would make the handler throw a `TypeError` and answer 500. The model assumes a string reply.
- `JSON.parse` is the `parse` parameter. There is no schema check of its result, because the handler has none.
- Non-string `imageData` and `currencyType` values are not modelled. Such values would make `startsWith` throw, or fall through to the auto template.
- `currencyType: null` would skip the destructuring default. It still selects the auto template, as `None` does.
- An error status that is not a number is not modelled.
- Estimator.RarityColor, Estimator.DemandColor: the lookups model only string keys in the table. A prototype key such as "constructor" indexes `Object.prototype` in JavaScript and is not modelled.
- Estimator.AnalyseOnce: a parsed value that is falsy in JavaScript (`null`, `false`, `0`, `""`, reachable only through a fenced reply) is stored as a set result, while the component's `result && !analyzing` treats it as no result and draws nothing. The parsed value is opaque here, so its truthiness is not modelled.
- Estimator.CurrencyValueEstimator.HandleImageUpload: `FileReader` is collapsed into one step that hands over the data URL. The time between choosing a file and `onload` is not modelled.
- `fetch`, the environment-dependent URL, `response.json()` and rendering are outside the model. `FinishAnalysis` takes the outcome as a value, and each render condition becomes the precondition of the handler it renders.
- The `toFixed` formatting of values and console logging are not modelled.
- src/index.js is not part of this model. It only mounts the component.
- The full text of each template is modelled as the concatenation of its lines. Only the facts stated above are proved about it.
