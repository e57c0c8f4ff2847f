/**
  Turning the model's completion text into a JSON value: a direct parse, then
  a parse of the span the pattern /\{[\s\S]*\}/ matches. JSON.parse itself is
  a parameter: it yields a value or the message of the SyntaxError it throws.
 */
module JsonExtract {
  import opened JsValues

  /** Positions the pattern /\{[\s\S]*\}/ can match between: an opening brace
      and a closing brace after it ([\s\S] matches every character). */
  predicate BracePair(s: string, i: int, j: int) {
    0 <= i < j < |s| && s[i] == '{' && s[j] == '}'
  }

  /** The match String.prototype.match reports for that pattern: the search
      takes the leftmost start that can match, and the greedy star then keeps
      the longest match from there. */
  ghost predicate RegexMatch(s: string, i: int, j: int) {
    && BracePair(s, i, j)
    && (forall i', j' :: BracePair(s, i', j') ==> i <= i')
    && (forall j' :: BracePair(s, i, j') ==> j' <= j)
  }

  /** Position of the first occurrence of `c` in `s`. */
  function IndexOf(s: string, c: char): (r: Option<nat>)
    ensures r.None? <==> forall k :: 0 <= k < |s| ==> s[k] != c
    ensures r.Some? ==> r.value < |s| && s[r.value] == c
    ensures r.Some? ==> forall k :: 0 <= k < r.value ==> s[k] != c
  {
    if s == [] then None
    else if s[0] == c then Some(0)
    else match IndexOf(s[1..], c)
      case None => None
      case Some(k) => Some(k + 1)
  }

  /** Position of the last occurrence of `c` in `s`. */
  function LastIndexOf(s: string, c: char): (r: Option<nat>)
    ensures r.None? <==> forall k :: 0 <= k < |s| ==> s[k] != c
    ensures r.Some? ==> r.value < |s| && s[r.value] == c
    ensures r.Some? ==> forall k :: r.value < k < |s| ==> s[k] != c
  {
    if s == [] then None
    else if s[|s| - 1] == c then Some(|s| - 1)
    else LastIndexOf(s[..|s| - 1], c)
  }

  /** Bounds of the regex match: from the first `{` to the last `}`, present
      exactly when the first `{` comes before the last `}`. */
  function MatchBounds(s: string): (r: Option<(nat, nat)>)
    ensures r.Some? ==> RegexMatch(s, r.value.0, r.value.1)
    ensures r.None? <==> forall i, j :: !BracePair(s, i, j)
  {
    match (IndexOf(s, '{'), LastIndexOf(s, '}'))
    case (Some(i), Some(j)) =>
      if i < j then Some((i, j))
      else None
    case (_, _) => None
  }

  /** The regex semantics has at most one match, so MatchBounds is it. */
  lemma RegexMatchUnique(s: string, i: int, j: int, i': int, j': int)
    requires RegexMatch(s, i, j) && RegexMatch(s, i', j')
    ensures i == i' && j == j'
  {
  }

  /** The text the pattern matches, braces included. */
  function BraceSpan(s: string): (r: Option<string>)
    ensures r.None? <==> forall i, j :: !BracePair(s, i, j)
    ensures r.Some? ==> exists i, j :: RegexMatch(s, i, j) && r.value == s[i..j + 1]
    ensures r.Some? ==> |r.value| >= 2 && r.value[0] == '{' && r.value[|r.value| - 1] == '}'
  {
    match MatchBounds(s)
    case None => None
    case Some((i, j)) => Some(s[i..j + 1])
  }

  /** The span exists exactly when the first `{` index is below the last `}` index. */
  lemma BraceSpanIffOrdered(s: string)
    ensures BraceSpan(s).Some? <==>
              IndexOf(s, '{').Some? && LastIndexOf(s, '}').Some? && IndexOf(s, '{').value < LastIndexOf(s, '}').value
  {
  }

  /** JSON wrapped in prose: when the text before the object has no `{` and
      the text after it no `}`, the span is exactly the object. */
  lemma {:induction false} SpanOfWrappedObject(prefix: string, obj: string, suffix: string)
    requires |obj| >= 2 && obj[0] == '{' && obj[|obj| - 1] == '}'
    requires forall k :: 0 <= k < |prefix| ==> prefix[k] != '{'
    requires forall k :: 0 <= k < |suffix| ==> suffix[k] != '}'
    ensures BraceSpan(prefix + obj + suffix) == Some(obj)
  {
    var s := prefix + obj + suffix;
    var i, j := |prefix|, |prefix| + |obj| - 1;
    assert s[i] == obj[0] && s[j] == obj[|obj| - 1];
    assert BracePair(s, i, j);
    var m := MatchBounds(s).value;
    assert m.0 <= i && j <= m.1;
    assert forall k :: 0 <= k < i ==> s[k] == prefix[k];
    assert forall k :: j < k < |s| ==> s[k] == suffix[k - j - 1];
    assert s[i..j + 1] == obj;
  }

  /** Where the chain ends: a value (from the whole text or from the span), a
      span that did not parse (its SyntaxError escapes), or no span at all. */
  datatype Extraction<+J> =
    | Extracted(value: J)
    | SpanRejected(message: string)
    | NoSpan

  /** Parse the completion text; failing that, parse the regex span. The
      caller decides what an absent span means. */
  function Extract<J>(content: string, parse: string -> Result<J, string>): (x: Extraction<J>)
    ensures parse(content).Ok? ==> x == Extracted(parse(content).value)
    ensures x.NoSpan? <==> parse(content).Err? && forall i, j :: !BracePair(content, i, j)
    ensures parse(content).Err? && x.Extracted? ==>
              exists i, j :: RegexMatch(content, i, j) && parse(content[i..j + 1]) == Ok(x.value)
    ensures x.SpanRejected? ==>
              exists i, j :: RegexMatch(content, i, j) && parse(content[i..j + 1]) == Err(x.message)
  {
    match parse(content)
    case Ok(v) => Extracted(v)
    case Err(_) =>
      match BraceSpan(content)
      case None => NoSpan
      case Some(span) =>
        match parse(span)
        case Ok(v) => Extracted(v)
        case Err(m) => SpanRejected(m)
  }

  /** For text that does not parse as a whole but wraps an object in
      brace-free prose, the chain hands the parser exactly that object. */
  lemma WrappedObjectIsParsed<J>(prefix: string, obj: string, suffix: string, parse: string -> Result<J, string>)
    requires |obj| >= 2 && obj[0] == '{' && obj[|obj| - 1] == '}'
    requires forall k :: 0 <= k < |prefix| ==> prefix[k] != '{'
    requires forall k :: 0 <= k < |suffix| ==> suffix[k] != '}'
    requires parse(prefix + obj + suffix).Err?
    ensures Extract(prefix + obj + suffix, parse) ==
              match parse(obj)
              case Ok(v) => Extracted(v)
              case Err(m) => SpanRejected(m)
  {
    SpanOfWrappedObject(prefix, obj, suffix);
  }
}
