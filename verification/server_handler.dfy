/**
  The story endpoint of server.js as decision functions: validation of the
  destructured body, the API-key check, the choice of prompt template, the
  completion call (given as its outcome), the JSON extraction chain with a
  synthesised fallback, and the mapping of thrown errors to HTTP statuses.
 */
module ServerHandler {
  import opened JsValues
  import opened JsonExtract
  import opened Request

  const TimeoutCode: string := "ECONNABORTED"

  const BadRequest := ErrorReply(400, "Language and theme required", NoExtra)
  const KeyMissing := ErrorReply(500, "API key not configured on Render", NoExtra)

  /** The two prompt templates. */
  datatype PromptMode = ContextMode | ThemeMode

  /** `context && context.trim().length > 0` picks the context template; a
      truthy non-string throws at `trim`. */
  function SelectMode(context: JsValue): (r: Result<PromptMode, TypeErrorSite>)
    ensures r == Ok(ContextMode) <==> context.Str? && !Blank(context.s)
    ensures r == Ok(ThemeMode) <==> !Truthy(context) || (context.Str? && Blank(context.s))
    ensures r == Err(ContextTrim) <==> Truthy(context) && !context.Str?
  {
    if !Truthy(context) then Ok(ThemeMode)
    else if !context.Str? then Err(ContextTrim)
    else
      TrimEmptyIffBlank(context.s);
      if |Trim(context.s)| > 0 then Ok(ContextMode) else Ok(ThemeMode)
  }

  /** Builds the prompt and logs `theme.substring(0, 50)`, which is
      everything between the API-key check and the call: the chosen template,
      or the TypeError one of them throws. */
  function Prepare(f: Body): (r: Result<PromptMode, TypeErrorSite>)
    ensures r.Ok? ==> SelectMode(f.context) == Ok(r.value) && KeywordsFault(f.keywords).None? && f.theme.Str?
    ensures r.Err? ==> SelectMode(f.context).Err? || KeywordsFault(f.keywords).Some? || !f.theme.Str?
    // the first template expression to throw decides the error: `context.trim`, then the keywords, then `theme.substring`
    ensures SelectMode(f.context).Err? ==> r == Err(ContextTrim)
    ensures SelectMode(f.context).Ok? && KeywordsFault(f.keywords).Some? ==> r == Err(KeywordsFault(f.keywords).value)
    ensures SelectMode(f.context).Ok? && KeywordsFault(f.keywords).None? && !f.theme.Str? ==> r == Err(ThemeSubstring)
  {
    match SelectMode(f.context)
    case Err(site) => Err(site)
    case Ok(mode) =>
      match KeywordsFault(f.keywords)
      case Some(site) => Err(site)
      case None => if f.theme.Str? then Ok(mode) else Err(ThemeSubstring)
  }

  /** The catch block: a timeout first, then an upstream 402, else 500. */
  function MapError(e: Thrown): (r: ErrorReply)
    ensures r.status == 504 || r.status == 402 || r.status == 500
    ensures r.status == 504 <==> CodeOf(e) == Some(TimeoutCode)
    ensures r.status == 402 <==> CodeOf(e) != Some(TimeoutCode) && StatusOf(e) == Some(402)
    ensures r.status == 504 ==> r.extra.Suggestion?
    ensures r.status == 402 ==> r.extra.Solution?
    ensures r.status == 500 ==> r.extra == Details(e)
  {
    if CodeOf(e) == Some(TimeoutCode) then
      ErrorReply(504, "DeepSeek timeout (took too long)", Suggestion("Try with a simpler story or fewer keywords"))
    else if StatusOf(e) == Some(402) then
      ErrorReply(402, "Insufficient DeepSeek balance", Solution("Add credit at platform.deepseek.com"))
    else
      ErrorReply(500, "Failed to generate story", Details(e))
  }

  /** The fallback object when the text has no brace span. */
  function Fallback<J>(theme: string, content: string): (d: StoryData<J>)
    ensures d.Synthesised? && d.story == content && d.questions == []
    ensures |d.title| == 7 + |theme|
    ensures d.title[..7] == "Story: "
    ensures forall k :: 0 <= k < |theme| ==> d.title[7 + k] == theme[k]
  {
    Synthesised("Story: " + theme, content, [])
  }

  /** After the call: the extraction chain, with errors sent to the catch block. */
  function Complete<J>(theme: string, upstream: Upstream, parse: string -> Result<J, string>): (r: Response<J>)
    ensures r != NoResponse
    ensures upstream.Failed? ==> r == Failure(MapError(Axios(upstream.error)))
    ensures upstream.Completion? && parse(upstream.content).Ok? ==>
              r == Success(AsParsed(parse(upstream.content).value))
    ensures upstream.Completion? && parse(upstream.content).Err? && BraceSpan(upstream.content).None? ==>
              r == Success(Fallback(theme, upstream.content))
    ensures upstream.Completion? && parse(upstream.content).Err? && BraceSpan(upstream.content).Some? ==>
              (parse(BraceSpan(upstream.content).value).Ok? &&
                 r == Success(AsParsed(parse(BraceSpan(upstream.content).value).value)))
              || (parse(BraceSpan(upstream.content).value).Err? &&
                 r == Failure(MapError(SpanSyntaxError(parse(BraceSpan(upstream.content).value).error))))
  {
    match upstream
    case Failed(e) => Failure(MapError(Axios(e)))
    case Completion(content) =>
      match Extract(content, parse)
      case Extracted(v) => Success(AsParsed(v))
      case SpanRejected(m) => Failure(MapError(SpanSyntaxError(m)))
      case NoSpan => Success(Fallback(theme, content))
  }

  /** `!apiKey`: an unset or empty variable counts as missing. */
  predicate KeyPresent(apiKey: Option<string>) {
    apiKey.Some? && apiKey.value != ""
  }

  /** What one request produces: the response, and the template the
      completion call was made with (None when no call was made). */
  datatype Outcome<+J> = Outcome(response: Response<J>, sent: Option<PromptMode>)

  /** The POST /api/generate-story handler. */
  function Handle<J>(body: Body, apiKey: Option<string>, upstream: Upstream, parse: string -> Result<J, string>): (o: Outcome<J>)
    // every request is answered
    ensures o.response != NoResponse
    // 400 exactly when language or theme is falsy once defaults are applied
    ensures StatusCode(o.response) == 400 <==>
              !Truthy(OrDefault(body.language, Str(DefaultLanguage))) || !Truthy(OrDefault(body.theme, Str(DefaultTheme)))
    // a valid body without a key gets 500 and no call is made
    ensures StatusCode(o.response) != 400 && !KeyPresent(apiKey) ==> o.response == Failure(KeyMissing) && o.sent.None?
    // the call is made only for a valid body with a key, with the template the context selects
    ensures o.sent.Some? ==> StatusCode(o.response) != 400 && KeyPresent(apiKey) && Prepare(Destructure(body)).Ok?
    // a valid body with a key whose templates throw gets the catch block's answer for that TypeError, and no call
    ensures (Truthy(Destructure(body).language) && Truthy(Destructure(body).theme) && KeyPresent(apiKey)
             && Prepare(Destructure(body)).Err?) ==>
              o.sent.None? && o.response == Failure(MapError(TypeErrorAt(Prepare(Destructure(body)).error)))
    // and a valid body with a key whose templates render is always sent, answered by what the call produces
    ensures (Truthy(Destructure(body).language) && Truthy(Destructure(body).theme) && KeyPresent(apiKey)
             && Prepare(Destructure(body)).Ok?) ==>
              o.sent == Some(Prepare(Destructure(body)).value)
              && o.response == Complete(Destructure(body).theme.s, upstream, parse)
    ensures o.sent == Some(ContextMode) ==> body.context.Str? && !Blank(body.context.s)
    ensures o.sent == Some(ThemeMode) ==> !body.context.Str? || Blank(body.context.s)
    // a call that times out yields 504 with a suggestion
    ensures o.sent.Some? && upstream.Failed? && upstream.error.code == Some(TimeoutCode) ==>
              StatusCode(o.response) == 504 && o.response.reply.extra.Suggestion?
    // a completion that parses is returned as-is
    ensures o.sent.Some? && upstream.Completion? && parse(upstream.content).Ok? ==>
              o.response == Success(AsParsed(parse(upstream.content).value))
    // every status is one of those the handler sends
    ensures StatusCode(o.response) in {200, 400, 402, 500, 504}
  {
    var f := Destructure(body);
    if !Truthy(f.language) || !Truthy(f.theme) then Outcome(Failure(BadRequest), None)
    else if !KeyPresent(apiKey) then Outcome(Failure(KeyMissing), None)
    else
      match Prepare(f)
      case Err(site) => Outcome(Failure(MapError(TypeErrorAt(site))), None)
      case Ok(mode) => Outcome(Complete(f.theme.s, upstream, parse), Some(mode))
  }

  /** An absent theme becomes 'aventura', so it never causes a 400; an empty
      one does. */
  lemma AbsentThemeIsDefaulted<J>(body: Body, apiKey: Option<string>, upstream: Upstream, parse: string -> Result<J, string>)
    requires body.theme == Undefined
    requires Truthy(OrDefault(body.language, Str(DefaultLanguage)))
    ensures StatusCode(Handle(body, apiKey, upstream, parse).response) != 400
    ensures StatusCode(Handle(body.(theme := Str("")), apiKey, upstream, parse).response) == 400
  {
  }

  /** A whitespace-only context selects the theme template. */
  lemma BlankContextSelectsTheme(s: string)
    requires Blank(s)
    ensures SelectMode(Str(s)) == Ok(ThemeMode)
  {
  }

  /** A completion without any brace span is wrapped, whatever the parser
      does with it: title "Story: " + theme, the text as story, no questions. */
  lemma NoSpanSynthesises<J>(body: Body, apiKey: Option<string>, content: string, parse: string -> Result<J, string>)
    requires Handle(body, apiKey, Completion(content), parse).sent.Some?
    requires parse(content).Err?
    requires forall k :: 0 <= k < |content| ==> content[k] != '{'
    ensures Destructure(body).theme.Str?
    ensures Handle(body, apiKey, Completion(content), parse).response
         == Success(Synthesised("Story: " + Destructure(body).theme.s, content, []))
  {
  }

  /** A body the templates cannot render (a truthy non-string context, null
      keywords or a non-empty keyword string, a non-string theme) is answered
      500 with the TypeError as details, and no call is made. */
  lemma TypeErrorsAre500<J>(body: Body, apiKey: Option<string>, upstream: Upstream, parse: string -> Result<J, string>)
    requires StatusCode(Handle(body, apiKey, upstream, parse).response) != 400 && KeyPresent(apiKey)
    requires var f := Destructure(body);
             (Truthy(f.context) && !f.context.Str?) || f.keywords.Null? || (f.keywords.Str? && f.keywords.s != "")
             || !f.theme.Str?
    ensures var o := Handle(body, apiKey, upstream, parse);
            o.sent.None? && StatusCode(o.response) == 500
            && o.response == Failure(MapError(TypeErrorAt(Prepare(Destructure(body)).error)))
  {
  }

  /** A brace span the parser rejects is not recovered from: its SyntaxError
      reaches the catch block and yields 500 with the message as details. */
  lemma SpanSyntaxErrorIs500<J>(body: Body, apiKey: Option<string>, content: string, parse: string -> Result<J, string>)
    requires Truthy(Destructure(body).language) && Truthy(Destructure(body).theme) && KeyPresent(apiKey)
    requires Prepare(Destructure(body)).Ok?
    requires parse(content).Err?
    requires BraceSpan(content).Some? && parse(BraceSpan(content).value).Err?
    ensures Handle(body, apiKey, Completion(content), parse).response
         == Failure(ErrorReply(500, "Failed to generate story", Details(SpanSyntaxError(parse(BraceSpan(content).value).error))))
  {
  }
}
