/**
  The story endpoint of api/story.js: the rate limiter runs first, then the
  language check, the prompt template, the API-key check, the completion
  call and the extraction chain. Its catch block only logs, so every error
  thrown after the limiter leaves the request without a response.
 */
module StoryHandler {
  import opened JsValues
  import opened JsonExtract
  import opened Request
  import opened RateLimit

  /** The limiter key: `req.ip || req.connection.remoteAddress`. */
  type ClientKey = Option<string>

  const TooManyRequests := ErrorReply(429, "Límite de peticiones alcanzado",
                                      Message("Máximo 30 historias por hora. Intenta más tarde."))
  const LanguageRequired := ErrorReply(400, "El idioma es requerido", NoExtra)
  const KeyMissing := ErrorReply(500, "API key no configurada",
                                 Solution("Agrega tu API key de DeepSeek en el archivo .env"))

  /** `req.ip || req.connection.remoteAddress`: an absent or empty `req.ip`
      falls back to the socket address. */
  function ClientKeyOf(reqIp: Option<string>, remoteAddress: Option<string>): (k: ClientKey)
    ensures reqIp.Some? && reqIp.value != "" ==> k == reqIp
    ensures (reqIp.None? || reqIp.value == "") ==> k == remoteAddress
  {
    if reqIp.Some? && reqIp.value != "" then reqIp else remoteAddress
  }

  /** `!apiKey || apiKey === 'test_mode'`: unset, empty or the placeholder
      value all count as missing. */
  predicate KeyUsable(apiKey: Option<string>) {
    apiKey.Some? && apiKey.value != "" && apiKey.value != "test_mode"
  }

  /** After the call: only a parsed object is answered; a failed call, a span
      that does not parse and a text without a span all throw into the
      catch block, which sends nothing. No object is ever synthesised. */
  function Complete<J>(upstream: Upstream, parse: string -> Result<J, string>): (r: Response<J>)
    ensures r.Success? ==> r.data.AsParsed?
    ensures !r.Failure?
    ensures r.Success? <==> upstream.Completion? && Extract(upstream.content, parse).Extracted?
    ensures upstream.Completion? && Extract(upstream.content, parse).Extracted? ==>
              r == Success(AsParsed(Extract(upstream.content, parse).value))
    ensures upstream.Completion? && parse(upstream.content).Ok? ==>
              r == Success(AsParsed(parse(upstream.content).value))
    ensures upstream.Completion? && parse(upstream.content).Err? && BraceSpan(upstream.content).None? ==>
              r == NoResponse
  {
    match upstream
    case Failed(_) => NoResponse
    case Completion(content) =>
      match Extract(content, parse)
      case Extracted(v) => Success(AsParsed(v))
      case SpanRejected(_) => NoResponse
      case NoSpan => NoResponse
  }

  /** What one request produces: the response, the limiter table after it,
      and whether the completion call was made. */
  datatype Outcome<+J> = Outcome(response: Response<J>, table: map<ClientKey, Entry>, called: bool)

  /** The POST /api/generate-story handler, at clock reading `now`. */
  function Handle<J>(t: map<ClientKey, Entry>, reqIp: Option<string>, remoteAddress: Option<string>, now: int,
                     body: Body, apiKey: Option<string>, upstream: Upstream,
                     parse: string -> Result<J, string>): (o: Outcome<J>)
    // the limiter decides first: 429 exactly when it denies, and then nothing changes
    ensures StatusCode(o.response) == 429 <==> !Step(t, ClientKeyOf(reqIp, remoteAddress), now).allowed
    ensures StatusCode(o.response) == 429 ==> o.table == t && !o.called
    // every admitted request has used its slot, whatever happens next
    ensures StatusCode(o.response) != 429 ==> o.table == Step(t, ClientKeyOf(reqIp, remoteAddress), now).table
    // 400 exactly for an admitted request whose language is falsy after defaulting; theme is not checked
    ensures StatusCode(o.response) == 400 <==>
              Step(t, ClientKeyOf(reqIp, remoteAddress), now).allowed
              && !Truthy(OrDefault(body.language, Str(DefaultLanguage)))
    // the call is made only for an admitted request with a language, renderable keywords and a usable key
    ensures o.called ==> Step(t, ClientKeyOf(reqIp, remoteAddress), now).allowed
                         && Truthy(OrDefault(body.language, Str(DefaultLanguage)))
                         && KeywordsFault(OrDefault(body.keywords, Arr([]))).None?
                         && KeyUsable(apiKey)
    // and such a request is always sent upstream, answered by what the call produces
    ensures (Step(t, ClientKeyOf(reqIp, remoteAddress), now).allowed
             && Truthy(OrDefault(body.language, Str(DefaultLanguage)))
             && KeywordsFault(OrDefault(body.keywords, Arr([]))).None? && KeyUsable(apiKey)) ==>
              o.called && o.response == Complete(upstream, parse)
    // the prompt is built before the key check: keywords it cannot render leave the request unanswered
    ensures (StatusCode(o.response) != 429 && Truthy(OrDefault(body.language, Str(DefaultLanguage)))
             && KeywordsFault(OrDefault(body.keywords, Arr([]))).Some?) ==>
              o.response == NoResponse && !o.called
    // past those checks, a missing or placeholder key gets 500 and no call is made
    ensures (StatusCode(o.response) != 429 && Truthy(OrDefault(body.language, Str(DefaultLanguage)))
             && KeywordsFault(OrDefault(body.keywords, Arr([]))).None? && !KeyUsable(apiKey)) ==>
              o.response == Failure(KeyMissing) && !o.called
    // success only after a call whose text yielded a parsed object, returned as-is
    ensures o.response.Success? ==> o.called && o.response.data.AsParsed?
    ensures StatusCode(o.response) in {0, 200, 400, 429, 500}
    ensures WellFormed(t) ==> WellFormed(o.table)
  {
    var key := ClientKeyOf(reqIp, remoteAddress);
    var d := Step(t, key, now);
    if !d.allowed then Outcome(Failure(TooManyRequests), t, false)
    else
      var f := Destructure(body);
      if !Truthy(f.language) then Outcome(Failure(LanguageRequired), d.table, false)
      else if KeywordsFault(f.keywords).Some? then Outcome(NoResponse, d.table, false)
      else if !KeyUsable(apiKey) then Outcome(Failure(KeyMissing), d.table, false)
      else Outcome(Complete(upstream, parse), d.table, true)
  }

  /** The limiter runs before validation: a request rejected with 400 still
      uses a slot, so with one slot left a bad request followed by any
      request in the same window gets 400 then 429. */
  lemma RejectedRequestUsesSlot<J>(t: map<ClientKey, Entry>, ip: string, now: int, bad: Body, next: Body,
                                   apiKey: Option<string>, upstream: Upstream, parse: string -> Result<J, string>)
    requires WellFormed(t)
    requires ip != "" && Some(ip) in t && !Expired(t[Some(ip)], now)
    requires t[Some(ip)].count == MaxRequests - 1
    requires !Truthy(OrDefault(bad.language, Str(DefaultLanguage)))
    ensures var first := Handle(t, Some(ip), None, now, bad, apiKey, upstream, parse);
            StatusCode(first.response) == 400
            && StatusCode(Handle(first.table, Some(ip), None, now, next, apiKey, upstream, parse).response) == 429
  {
    var first := Handle(t, Some(ip), None, now, bad, apiKey, upstream, parse);
    assert first.table[Some(ip)] == Entry(MaxRequests, t[Some(ip)].lastReset);
  }

  /** Without a brace span in an unparsable completion, api/story.js throws
      instead of synthesising an object, and the empty catch block sends
      nothing. */
  lemma NoSpanNoResponse<J>(t: map<ClientKey, Entry>, reqIp: Option<string>, remoteAddress: Option<string>, now: int,
                            body: Body, apiKey: Option<string>, content: string, parse: string -> Result<J, string>)
    requires Handle(t, reqIp, remoteAddress, now, body, apiKey, Completion(content), parse).called
    requires parse(content).Err?
    requires forall k :: 0 <= k < |content| ==> content[k] != '}'
    ensures Handle(t, reqIp, remoteAddress, now, body, apiKey, Completion(content), parse).response == NoResponse
  {
  }

  /** Only the language is validated here: the theme, whatever it is, never
      changes the outcome (it is only interpolated into the prompt). */
  lemma ThemeIgnored<J>(t: map<ClientKey, Entry>, reqIp: Option<string>, remoteAddress: Option<string>, now: int,
                        body: Body, theme: JsValue, apiKey: Option<string>, upstream: Upstream,
                        parse: string -> Result<J, string>)
    ensures Handle(t, reqIp, remoteAddress, now, body.(theme := theme), apiKey, upstream, parse)
         == Handle(t, reqIp, remoteAddress, now, body, apiKey, upstream, parse)
  {
  }
}
