/** The `ai-predictions` edge function: one request in, one response out. The request
    body, the API key, the AI gateway's reply and JSON parsing are parameters. */
module AiPredictions {
  import opened Wrappers

  /** The position of the first occurrence of `c`. */
  function FirstIndex(s: string, c: char): (r: Option<nat>)
    ensures r.None? <==> c !in s
    ensures r.Some? ==> r.value < |s| && s[r.value] == c
    ensures r.Some? ==> forall i :: 0 <= i < r.value ==> s[i] != c
  {
    if s == [] then None
    else if s[0] == c then Some(0)
    else match FirstIndex(s[1..], c)
      case None => None
      case Some(i) => Some(i + 1)
  }

  /** The position of the last occurrence of `c`. */
  function LastIndex(s: string, c: char): (r: Option<nat>)
    ensures r.None? <==> c !in s
    ensures r.Some? ==> r.value < |s| && s[r.value] == c
    ensures r.Some? ==> forall i :: r.value < i < |s| ==> s[i] != c
  {
    if s == [] then None
    else if s[|s| - 1] == c then Some(|s| - 1)
    else LastIndex(s[..|s| - 1], c)
  }

  /** There is a '{' somewhere before a '}'. */
  predicate HasBracePair(s: string)
  {
    exists i, j :: 0 <= i < j < |s| && s[i] == '{' && s[j] == '}'
  }

  /** A brace pair exists exactly when the first '{' comes before the last '}'. */
  lemma BracePairBounds(s: string)
    ensures HasBracePair(s) <==>
      (FirstIndex(s, '{').Some? && LastIndex(s, '}').Some?
       && FirstIndex(s, '{').value < LastIndex(s, '}').value)
  {
    var first, last := FirstIndex(s, '{'), LastIndex(s, '}');
    if HasBracePair(s) {
      var i, j :| 0 <= i < j < |s| && s[i] == '{' && s[j] == '}';
      assert first.value <= i && j <= last.value;
    }
    if first.Some? && last.Some? && first.value < last.value {
      assert s[first.value] == '{' && s[last.value] == '}';
    }
  }

  /** The bounds of the text `/\{[\s\S]*\}/` matches: from the first '{' to the last '}',
      when that '}' comes after that '{'. */
  function BraceSpan(s: string): (r: Option<(nat, nat)>)
    ensures r.None? <==> !HasBracePair(s)
    ensures r.Some? ==> (r.value.0 < r.value.1 < |s|
                         && s[r.value.0] == '{' && s[r.value.1] == '}')
    ensures r.Some? ==> (forall i, j :: 0 <= i < j < |s| && s[i] == '{' && s[j] == '}' ==>
                           r.value.0 <= i && j <= r.value.1)
  {
    var first, last := FirstIndex(s, '{'), LastIndex(s, '}');
    BracePairBounds(s);
    if first.Some? && last.Some? && first.value < last.value then Some((first.value, last.value))
    else None
  }

  /** The matched text, braces included. */
  function Extracted(s: string): (r: Option<string>)
    ensures r.None? <==> !HasBracePair(s)
    ensures r.Some? ==> (|r.value| >= 2 && r.value[0] == '{' && r.value[|r.value| - 1] == '}')
  {
    match BraceSpan(s)
    case None => None
    case Some((a, b)) => Some(s[a..b + 1])
  }

  /** The match is greedy: any brace-delimited piece of the reply lies inside it, and
      the text before it holds no '{' and the text after it no '}'. */
  lemma ExtractedIsGreedy(s: string, i: nat, j: nat)
    requires HasBracePair(s)
    requires i < j < |s| && s[i] == '{' && s[j] == '}'
    ensures BraceSpan(s).Some?
    ensures var (a, b) := BraceSpan(s).value;
      a <= i && j <= b && '{' !in s[..a] && '}' !in s[b + 1..]
  {
    var (a, b) := BraceSpan(s).value;
    assert a == FirstIndex(s, '{').value;
    assert b == LastIndex(s, '}').value;
    assert forall k :: 0 <= k < a ==> s[..a][k] == s[k];
    var after := s[b + 1..];
    assert forall k :: 0 <= k < |after| ==> after[k] == s[b + 1 + k];
  }

  /** What the function sends back as `predictions`: the parsed object, or the raw reply
      wrapped as a summary (None when the reply had no content). */
  datatype Prediction<J> = Parsed(json: J) | Summary(text: Option<string>)

  datatype Response<J> =
    | Preflight                            // empty body, CORS headers only
    | Failure(status: int, message: string)
    | Success(predictions: Prediction<J>)

  /** The AI gateway's side of the exchange. */
  datatype Upstream =
    | Unreachable(error: string)           // fetch throws, with this message
    | NotOk(status: int)                   // a non-2xx reply
    | BadBody(error: string)               // a 2xx reply whose body is not JSON
    | Reply(content: Option<string>)       // choices[0].message.content, if present

  /** The predictions built from the reply content: the greedy brace span parsed as
      JSON, or `{summary: content}` when there is no span, parsing fails, or there is no
      content at all. */
  function PredictionsFrom<J>(content: Option<string>, parse: string -> Option<J>): (p: Prediction<J>)
    ensures p.Parsed? <==> content.Some? && Extracted(content.value).Some?
                           && parse(Extracted(content.value).value).Some?
    ensures p.Parsed? ==> p.json == parse(Extracted(content.value).value).value
    ensures p.Summary? ==> p.text == content
  {
    if content.None? then Summary(None)
    else match Extracted(content.value)
      case None => Summary(content)
      case Some(text) =>
        match parse(text)
        case None => Summary(content)
        case Some(j) => Parsed(j)
  }

  /** The request handler: a preflight is answered at once; otherwise an unreadable body
      (`bodyError` carries the message `req.json()` throws), a missing or empty key, or a
      gateway failure other than 429 and 402 end in 500 with the thrown message. */
  method HandleRequest<J>(isOptions: bool, bodyError: Option<string>, apiKey: Option<string>, upstream: Upstream,
                          parse: string -> Option<J>)
    returns (r: Response<J>)
    ensures isOptions <==> r.Preflight?
    ensures !isOptions && bodyError.Some? ==> r == Failure(500, bodyError.value)
    ensures !isOptions && bodyError.None? && (apiKey.None? || apiKey == Some("")) ==>
      r == Failure(500, "LOVABLE_API_KEY is not configured")
    ensures r.Failure? && r.status == 429 ==> upstream == NotOk(429)
    ensures r.Failure? && r.status == 402 ==> upstream == NotOk(402)
    ensures r.Failure? ==> r.status in {429, 402, 500}
    ensures !isOptions && bodyError.None? && apiKey.Some? && apiKey.value != "" && upstream.NotOk? ==>
      r == (if upstream.status == 429 then Failure(429, "Rate limits exceeded, please try again later.")
            else if upstream.status == 402 then Failure(402, "Payment required, please add funds.")
            else Failure(500, "AI gateway error"))
    ensures !isOptions && bodyError.None? && apiKey.Some? && apiKey.value != ""
            && (upstream.Unreachable? || upstream.BadBody?) ==>
      r == Failure(500, upstream.error)
    ensures r.Success? <==> (!isOptions && bodyError.None? && apiKey.Some? && apiKey.value != ""
                             && upstream.Reply?)
    ensures r.Success? ==> r.predictions == PredictionsFrom(upstream.content, parse)
  {
    if isOptions {
      return Preflight;
    }
    if bodyError.Some? {
      return Failure(500, bodyError.value);
    }
    if apiKey.None? || apiKey.value == "" {
      return Failure(500, "LOVABLE_API_KEY is not configured");
    }
    match upstream {
      case Unreachable(error) =>
        return Failure(500, error);
      case NotOk(status) =>
        if status == 429 {
          return Failure(429, "Rate limits exceeded, please try again later.");
        }
        if status == 402 {
          return Failure(402, "Payment required, please add funds.");
        }
        return Failure(500, "AI gateway error");
      case BadBody(error) =>
        return Failure(500, error);
      case Reply(content) =>
        return Success(PredictionsFrom(content, parse));
    }
  }
}
