# Story generator backend: request decisions and rate limiter in Dafny

The backend exposes `POST /api/generate-story`. The handler reads `language`,
`theme`, `keywords`, `context` and `category` from the JSON body. It builds a
prompt, calls a chat-completion endpoint once, and returns the JSON object
found in the model's reply. The repository has two variants of this handler:

- `server.js` validates `language` and `theme`, checks the API key, picks one
  of two prompt templates, and extracts JSON from the reply. When the reply
  does not parse and has no `{`…`}` span, it synthesises a fallback object;
  a span that does not parse gives 500. It maps thrown errors to
  504, 402 or 500.
- `api/story.js` first runs a per-client fixed-window rate limiter: 30
  requests per 3,600,000 ms. It then checks only `language`, checks the API
  key, and extracts JSON. When the reply holds no JSON it throws. Its catch
  block only logs and sends nothing, so any thrown error leaves the request
  without a response.

The model is pure functions over immutable values:

- `js_values.dfy` (`JsValues`): the JavaScript values a JSON body can carry,
  truthiness, destructuring defaults (which replace only `undefined`), and
  `String.prototype.trim` with ECMAScript's whitespace set.
- `rate_limit.dfy` (`RateLimit`): the limiter table `map<K, Entry>`, one
  `Step` per request with `now` as a parameter, and `Run` over a sequence of
  requests.
- `json_extract.dfy` (`JsonExtract`): the chain "parse the whole text, then
  parse the span matched by `/\{[\s\S]*\}/`". The regex semantics is stated
  independently as a ghost predicate: leftmost start, then longest match.
  `JSON.parse` is a parameter `string -> Result<J, string>`; its error carries
  the SyntaxError message.
- `request.dfy` (`Request`): the destructured body, the runtime TypeErrors
  that the prompt templates can throw, the upstream outcome, and the reply
  shape.
- `server_handler.dfy` (`ServerHandler`) and `story_handler.dfy`
  (`StoryHandler`): the two handlers as decision functions.

Facts about the code that the model keeps:

- `language` and `theme` have defaults (`'español'`, `'aventura'`), so only a
  value that is present but falsy gives 400. `api/story.js` never checks
  `theme` at all.
- Extraction has two steps: the whole text, then the brace span. There is no
  step that searches for a fenced code block.
- `server.js` gives its own status only to a timeout (504) and an upstream 402
  (402). Every other error, an upstream 401 or 429 included, gives 500.
- The parsed object is returned without any normalisation. Answer indices,
  options and questions are passed through as the model wrote them.

## Model

| member | source | states |
|---|---|---|
| RateLimit.Step | api/story.js:15-40 | An unseen client is allowed with entry (1, now). An expired window (strictly more than 3,600,000 ms) restarts at (1, now) whatever the old count. Inside the window, a count of 30 or more is denied with the table unchanged; otherwise the count rises by one and the window start is kept. No other client's entry is created or changed, and counts stay in [1, 30]. |
| RateLimit.ResetIsStrict | api/story.js:27-36 | A full window that has lasted exactly 3,600,000 ms still denies; one millisecond later the request is allowed. |
| RateLimit.RunKeepsWellFormed | api/story.js:13-40 | Any sequence of calls keeps every stored count in [1, 30]. |
| RateLimit.RunLeavesOthers | api/story.js:19-39 | Requests from other clients never create, change or admit anything for a given client. |
| RateLimit.WithinWindow | api/story.js:24-39 | While a client's requests stay within its current window, exactly min(n, 30 - count) of them are allowed. The count grows by that number and the window start does not move. |
| RateLimit.WindowCap | api/story.js:15-40 | From a request that opens a window (first contact, or first after expiry), exactly min(n, 30) of the client's n requests within one window are allowed: at most 30 per window. |
| RateLimit.SlidingHourBurst | api/story.js:26-39 | The cap is per fixed window, not per sliding hour. A client fills its window at the window's last millisecond, then sends m more requests one millisecond later. It is allowed 30 - count + m times within that 1 ms span, nearly 60 for m = 30. |
| RateLimit.FillAtWindowEnd | api/story.js:33-39 | Requests at the last millisecond of a window are admitted until the count reaches 30; the window start does not move. |
| RateLimit.RestartAdmitsAll | api/story.js:26-39 | Right after a window expired, up to 30 requests at one instant are all admitted. |
| RateLimit.RunAppendTable | api/story.js:13-40 | Two request sequences run back to back end in the same table as their concatenation. |
| RateLimit.RunAppendVerdicts | api/story.js:13-40 | Two request sequences run back to back give the verdicts of their concatenation. |
| RateLimit.AllowedFromRunAppend | api/story.js:13-40 | A client's admissions over two sequences run back to back add up. |
| JsValues.OrDefault | server.js:26-32 | A destructuring default replaces exactly `undefined` with the default. Any other value, `null` and `""` included, is kept. |
| JsValues.Trim | server.js:45 | `trim` yields a slice of the string with only whitespace outside it. A non-empty result starts and ends with a non-whitespace character. |
| JsValues.TrimEmptyIffBlank | server.js:45 | The trimmed string is empty exactly when every character is whitespace. |
| Request.Destructure | server.js:26-32 | An absent field takes its default: `language` becomes `'español'`, `theme` becomes `'aventura'`, `keywords` becomes `[]`, and `context` and `category` become `""`. Every field present in the body passes through unchanged. |
| Request.KeywordsFault | server.js:50 | `keywords.length` throws on null or undefined, and `keywords.join` throws on a non-empty string. Nothing else throws: arrays, `""`, booleans, numbers and objects are safe. |
| JsonExtract.IndexOf | server.js:125 | Returns the first position holding the character, or none exactly when the character does not occur. |
| JsonExtract.LastIndexOf | server.js:125 | Returns the last position holding the character, or none exactly when the character does not occur. |
| JsonExtract.MatchBounds | server.js:125 | Returns the leftmost-longest match of `/\{[\s\S]*\}/`, or none exactly when no `{` is followed by a `}`. |
| JsonExtract.RegexMatchUnique | server.js:125 | The leftmost-longest match is unique, so the bounds found are the match `content.match` reports. |
| JsonExtract.BraceSpan | server.js:125-127 | The matched text starts with `{` and ends with `}`. It exists exactly when some `{` precedes some `}`. |
| JsonExtract.BraceSpanIffOrdered | server.js:125-126 | The span exists exactly when the first `{` index is below the last `}` index. |
| JsonExtract.SpanOfWrappedObject | api/story.js:146-148 | For an object wrapped in prose with no `{` before it and no `}` after it, the span is exactly the object. |
| JsonExtract.Extract | server.js:120-127 | A direct parse that succeeds is returned as-is. Otherwise the parser gets the regex span. The result is "no span" exactly when the direct parse fails and no `{` precedes a `}`. |
| JsonExtract.WrappedObjectIsParsed | api/story.js:142-148 | When the whole text does not parse and it wraps an object in brace-free prose, the chain hands the parser exactly that object. |
| ServerHandler.SelectMode | server.js:44-85 | The context template is chosen exactly when `context` is a string with a non-whitespace character. A falsy or whitespace-only context chooses the theme template. A truthy non-string throws at `trim`. |
| ServerHandler.Prepare | server.js:44-87 | Prompt building succeeds exactly when the mode is selected, the keywords render, and `theme` is a string. Otherwise the first expression to throw names the TypeError: `context.trim`, then `keywords.length` or `keywords.join`, then `theme.substring`. |
| ServerHandler.MapError | server.js:150-173 | Code `ECONNABORTED` gives 504 with a suggestion, checked first. Otherwise upstream status 402 gives 402. Anything else gives 500 with the error as details. |
| ServerHandler.Fallback | server.js:128-133 | The synthesised object has title `"Story: " + theme`, the whole text as story, and no questions. |
| ServerHandler.Complete | server.js:117-148 | After the call, every outcome is answered. A failed call goes through the error mapping. A parsed object is returned as-is. No span gives the fallback object. An unparsable span gives the error mapping's 500. |
| ServerHandler.Handle | server.js:22-174 | The response is 400 exactly when `language` or `theme` is falsy after defaulting. A missing key gives 500 with no call. A valid body with a key whose templates render is always sent, with the template the context selects, and gets what the call produces. A template TypeError gets the catch block's answer for that error, with no call. The call is made in no other case. A timeout gives 504, and a parsed reply is returned as-is. Every request is answered. |
| ServerHandler.AbsentThemeIsDefaulted | server.js:26-36 | An absent `theme` becomes `'aventura'` and never causes 400; an empty-string `theme` does. |
| ServerHandler.BlankContextSelectsTheme | server.js:45 | A whitespace-only context selects the theme template. |
| ServerHandler.NoSpanSynthesises | server.js:128-133 | An unparsable completion with no `{` is answered with `{title: "Story: " + theme, story: content, questions: []}`. |
| ServerHandler.TypeErrorsAre500 | server.js:44-87 | A body the templates cannot render is answered 500, with details naming the TypeError the first failing expression throws. No call is made. This covers a truthy non-string context, null keywords, a non-empty keyword string, and a non-string theme. |
| ServerHandler.SpanSyntaxErrorIs500 | server.js:125-173 | A brace span the parser rejects is not recovered from locally; the catch block answers 500 with its message as details. |
| StoryHandler.ClientKeyOf | api/story.js:55 | The limiter key is `req.ip` when it is a non-empty string, else the socket's remote address. |
| StoryHandler.Complete | api/story.js:139-177 | A parsed object is answered as-is: the whole text's value, or else the brace span's value. A failed call, an unparsable span and a text with no span all leave the request without a response. No object is ever synthesised. |
| StoryHandler.Handle | api/story.js:52-178 | The limiter decides first: 429 exactly when it denies, with the table unchanged. Every admitted request uses its slot. 400 comes exactly for an admitted request with a falsy language. Unrenderable keywords mean no response, even without a key. A missing or `test_mode` key gives 500 with no call. An admitted request with a language, renderable keywords and a usable key is always sent upstream and gets what the call produces. The call is made in no other case. |
| StoryHandler.RejectedRequestUsesSlot | api/story.js:55-74 | With one slot left, a request with an invalid language gets 400, and the next request in the same window gets 429. |
| StoryHandler.NoSpanNoResponse | api/story.js:146-151 | An unparsable completion without a `}` throws instead of synthesising an object, and nothing is sent. |
| StoryHandler.ThemeIgnored | api/story.js:64-74 | `theme` is never validated. Replacing it by any modelled value leaves the outcome unchanged. |

## Left out

- HTTP plumbing is not modelled: Express setup, `cors`, `dotenv`, `app.listen`, the health endpoints and console logging. It is framework code with no decision logic.
- The completion call is only an outcome parameter: a content string, or an axios error with code, status and message. Its request body, headers and timeouts (40,000 ms and 55,000 ms) are not modelled; that is network I/O.
- The reply is assumed to carry `choices[0].message.content` as a string. A malformed upstream payload is not modelled.
- `JSON.parse` is an uninterpreted parameter. The JSON grammar is library behaviour.
- Prompt text is not modelled, only which template is used. In `api/story.js`, `context ? context : '...'` only picks a prompt line, so it is not modelled either.
- `Date.now()` is the `now` parameter. `toISOString()` timestamps and the token-usage metadata are not modelled.
- Error messages of runtime TypeErrors and of axios errors are not spelled out. A 500's `details` holds the thrown value, which stands for its `message`.
- Reply bodies keep `error` and the one extra field only. The `success: false` flag and the `meta` object are not modelled.
- Concurrency is not modelled. Limiter calls are sequential, as the event loop runs each check-and-update without preemption.
- A body that is not an object (`req.body` undefined) is not modelled. The JSON middleware always supplies an object.
- A keyword object with its own `length` property is not modelled. Plain objects, numbers and booleans have no `length`, so `join` is never reached for them.
- Objects are opaque (`Obj`), and so are the elements of a keywords array. Some JSON bodies have an object whose `toString` cannot be called, such as `{"theme": {"toString": null}}`. Interpolating such a value in a template throws a TypeError: `${theme}` and `${language}` at api/story.js:79-80, `"${context}"` at server.js:46, and `keywords.join` over such an element. The model instead builds the prompt and makes the call. So `KeywordsFault`'s "arrays never throw" and `ThemeIgnored`'s "any value" hold only for values whose string conversion succeeds.
- test-api.js is not part of this model. It is a manual smoke test against a deployed server and makes no assertions.
