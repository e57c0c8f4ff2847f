/**
  What both story handlers share: the request body after destructuring, the
  runtime TypeErrors the prompt templates can throw, the upstream outcome and
  the shape of the reply sent to the client.
 */
module Request {
  import opened JsValues

  const DefaultLanguage: string := "español"
  const DefaultTheme: string := "aventura"

  /** The body properties the handlers read; `Undefined` means absent. */
  datatype Body = Body(language: JsValue, theme: JsValue, keywords: JsValue, context: JsValue, category: JsValue)

  /** `const { language = 'español', theme = 'aventura', keywords = [],
      context = '', category = '' } = req.body`. */
  function Destructure(b: Body): (f: Body)
    ensures f.language != Undefined && f.theme != Undefined && f.keywords != Undefined
    ensures f.context != Undefined && f.category != Undefined
    ensures b.language != Undefined ==> f.language == b.language
    ensures b.theme != Undefined ==> f.theme == b.theme
    ensures b.keywords != Undefined ==> f.keywords == b.keywords
    ensures b.context != Undefined ==> f.context == b.context
    ensures b.category != Undefined ==> f.category == b.category
    // an absent field takes its declared default
    ensures b.language.Undefined? ==> f.language == Str(DefaultLanguage)
    ensures b.theme.Undefined? ==> f.theme == Str(DefaultTheme)
    ensures b.keywords.Undefined? ==> f.keywords == Arr([])
    ensures b.context.Undefined? ==> f.context == Str("")
    ensures b.category.Undefined? ==> f.category == Str("")
  {
    Body(
      OrDefault(b.language, Str(DefaultLanguage)),
      OrDefault(b.theme, Str(DefaultTheme)),
      OrDefault(b.keywords, Arr([])),
      OrDefault(b.context, Str("")),
      OrDefault(b.category, Str("")))
  }

  /** Where a runtime TypeError comes from. */
  datatype TypeErrorSite =
    | ContextTrim     // `context.trim()` on a truthy non-string
    | KeywordsLength  // `keywords.length` on null
    | KeywordsJoin    // `keywords.join(', ')` on a non-empty string
    | ThemeSubstring  // `theme.substring(0, 50)` on a non-string

  /** Both prompt templates evaluate `keywords.length` and, when it is a
      positive number, `keywords.join(', ')`. The result is the TypeError that
      throws, if any: reading a property of null or undefined throws, a
      string has a length but no join, and on booleans, numbers and plain
      objects `length` is undefined, so join is never reached. */
  function KeywordsFault(k: JsValue): (r: Option<TypeErrorSite>)
    ensures r == Some(KeywordsLength) <==> k.Undefined? || k.Null?
    ensures r == Some(KeywordsJoin) <==> k.Str? && k.s != ""
    ensures r.None? <==> !(k.Undefined? || k.Null? || (k.Str? && k.s != ""))
  {
    match k
    case Undefined => Some(KeywordsLength)
    case Null => Some(KeywordsLength)
    case Str(s) => if s != "" then Some(KeywordsJoin) else None
    case _ => None
  }

  /** The axios error the completion call rejects with: `error.code`,
      `error.response?.status` and `error.message`. A timeout carries the code
      "ECONNABORTED"; an HTTP error status carries the status. */
  datatype AxiosError = AxiosError(code: Option<string>, status: Option<int>, message: string)

  /** The outcome of the single call to the completion endpoint. */
  datatype Upstream =
    | Completion(content: string)  // `response.data.choices[0].message.content`
    | Failed(error: AxiosError)

  /** What reaches a handler's catch block. */
  datatype Thrown =
    | Axios(error: AxiosError)
    | TypeErrorAt(site: TypeErrorSite)
    | SpanSyntaxError(message: string)  // JSON.parse of the regex span threw

  /** `error.code`: only axios errors carry one. */
  function CodeOf(e: Thrown): Option<string> {
    if e.Axios? then e.error.code else None
  }

  /** `error.response?.status`: only axios errors carry one. */
  function StatusOf(e: Thrown): Option<int> {
    if e.Axios? then e.error.status else None
  }

  /** The `data` a successful reply carries. */
  datatype StoryData<+J> =
    | AsParsed(value: J)                                          // the parsed object, as-is
    | Synthesised(title: string, story: string, questions: seq<J>)  // the fallback object

  /** The field a failure reply carries beside `error`. */
  datatype Extra =
    | NoExtra
    | Message(text: string)
    | Solution(text: string)
    | Suggestion(text: string)
    | Details(cause: Thrown)  // `details: error.message`

  datatype ErrorReply = ErrorReply(status: nat, error: string, extra: Extra)

  /** What the client receives; `NoResponse` when the handler never answers. */
  datatype Response<+J> =
    | Success(data: StoryData<J>)
    | Failure(reply: ErrorReply)
    | NoResponse

  /** The HTTP status of a response, 0 when none is sent. */
  function StatusCode<J>(r: Response<J>): nat {
    match r
    case Success(_) => 200
    case Failure(e) => e.status
    case NoResponse => 0
  }
}
