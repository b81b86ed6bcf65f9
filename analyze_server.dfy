/**
 * server.js: the `/api/analyze-food` handler.  It checks the request, calls the
 * chat-completion service, checks the reply envelope and turns the reply text
 * into `data` by a ladder that never fails: parse it whole; else take the
 * first "```json\n" block or, failing that, the greedy brace span, clean and
 * parse it; else answer `{text: content}`.
 */
module AnalyzeServer {
  import opened Wrappers
  import opened JsValues
  import opened JsText
  import opened Patterns
  import opened Upstream
  import opened SimpleFunctions

  /** The JSON the handler answers with: `{success: true, data}` or `{success: false, error}` with a status. */
  datatype Reply = Ok(data: Json) | Fail(status: int, error: string)

  const ServerError := "Server error processing request"
  const MissingImage := "Image data is required"
  const MissingKey := "Server configuration error: OpenAI API key not set"
  const InvalidResponse := "Invalid response from OpenAI"

  /** `content.match(/```json\n([\s\S]*?)\n```/) || content.match(/\{[\s\S]*\}/)`, as `match[0]`. */
  function JsonCandidate(content: string): Option<string> {
    if JsonFence(content).Some? then JsonFence(content) else GreedyBrace(content)
  }

  /** The ladder of server.js:133-171, shared word for word by api-server/server.js:155-193. */
  function ExtractData(parse: Parser, content: string): (r: Json)
    // a reply that parses whole is the data
    ensures parse(content).Parsed? ==> r == parse(content).value
    // every failure ends in `{text: content}`, never in an error
    ensures parse(content).SyntaxError? && (JsonCandidate(content).None? || parse(Cleaned(JsonCandidate(content).value)).SyntaxError?)
        ==> r == TextObject(content)
    ensures parse(content).SyntaxError? && JsonCandidate(content).Some? && parse(Cleaned(JsonCandidate(content).value)).Parsed?
        ==> r == parse(Cleaned(JsonCandidate(content).value)).value
  {
    match parse(content)
    case Parsed(v) => v
    case SyntaxError(_) =>
      match JsonCandidate(content)
      case None => TextObject(content)
      case Some(m) =>
        match parse(Cleaned(m))
        case Parsed(v) => v
        case SyntaxError(_) => TextObject(content)
  }

  /**
   * For P + "```json\n" + X + "\n```" + S, with no "```json\n" in P and no
   * backtick in X, a reply that does not parse whole yields what `X.trim()`
   * parses to, or `{text}`; P and S (braces included) play no part.
   */
  lemma {:induction false} FencedData(parse: Parser, p: string, x: string, sfx: string)
    requires IndexOf(p, JsonFenceOpen, 0).None? && '`' !in x
    requires parse(p + JsonFenceOpen + x + JsonFenceClose + sfx).SyntaxError?
    ensures var c := p + JsonFenceOpen + x + JsonFenceClose + sfx;
      ExtractData(parse, c) == (if parse(Trim(x)).Parsed? then parse(Trim(x)).value else TextObject(c))
  {
    var c := p + JsonFenceOpen + x + JsonFenceClose + sfx;
    JsonFenceInContext(p, x, sfx);
    FencedBlockSlice(p, x, sfx);
    assert JsonCandidate(c) == Some(JsonFenceOpen + x + JsonFenceClose);
    CleanJsonFenceBlock(x);
  }

  /** With no "```json\n" block, the candidate is the greedy span from the first `{` to the last `}`. */
  lemma {:induction false} BraceFallback(content: string)
    requires !Contains(content, JsonFenceOpen)
    ensures JsonCandidate(content) == GreedyBrace(content)
    ensures JsonCandidate(content).Some? <==> exists a, b :: 0 <= a < b < |content| && content[a] == '{' && content[b] == '}'
  {
    assert JsonFenceSpan(content).None?;
  }

  /**
   * `data` from the reply content once the envelope checks pass: a string goes
   * through the ladder; any other value is given to `JSON.parse` as
   * `String(content)`, and if that fails `content.match` is not a function.
   */
  function DataFromContent(parse: Parser, content: Json): (r: Reply)
    ensures content.Str? ==> r == Ok(ExtractData(parse, content.s))
    ensures r.Fail? ==> r == Fail(500, ServerError)
  {
    if content.Str? then Ok(ExtractData(parse, content.s))
    else
      match parse(Show(content))
      case Parsed(v) => Ok(v)
      case SyntaxError(_) => Fail(500, ServerError)
  }

  /** What the handler makes of the service's answer once the request has been accepted. */
  function FromUpstream(parse: Parser, upstream: FetchResult): (r: Reply)
    // a rejected `fetch` and a null body (reading `data.choices` throws) end in the outer catch
    ensures upstream.Rejected? ==> r == Fail(500, ServerError)
    ensures upstream.Body? && upstream.data.Null? ==> r == Fail(500, ServerError)
    ensures upstream.NotOk? ==> r == Fail(upstream.status, "OpenAI API error: " + IntToString(upstream.status))
    ensures upstream.Body? && !upstream.data.Null? && ChoiceContent(upstream.data).None? ==> r == Fail(500, InvalidResponse)
    // a string reply that passed the envelope checks always yields success
    ensures upstream.Body? && !upstream.data.Null? && ChoiceContent(upstream.data).Some? && ChoiceContent(upstream.data).value.Str?
        ==> r == Ok(ExtractData(parse, ChoiceContent(upstream.data).value.s))
    // any other content is printed with `String` and parsed whole, or ends in the outer catch
    ensures upstream.Body? && !upstream.data.Null? && ChoiceContent(upstream.data).Some?
        ==> r == DataFromContent(parse, ChoiceContent(upstream.data).value)
  {
    match upstream
    case Rejected(_) => Fail(500, ServerError)
    case NotOk(status) => Fail(status, "OpenAI API error: " + IntToString(status))
    case Body(data) =>
      if data.Null? then Fail(500, ServerError)   // reading `data.choices` of null throws
      else
        match ChoiceContent(data)
        case None => Fail(500, InvalidResponse)
        case Some(content) => DataFromContent(parse, content)
  }

  /**
   * The handler of server.js:45-180 for the request body `body`; `keySet`
   * says whether OPENAI_API_KEY is set, `upstream` is what the call returns.
   */
  function AnalyzeFood(body: map<string, Json>, keySet: bool, upstream: FetchResult, parse: Parser): (r: Reply)
    // a missing image is refused with 400 whatever the service would have answered
    ensures !Present(Field(body, "image")) ==> r == Fail(400, MissingImage)
    // an image that is not a string breaks the `image.substring` log line
    ensures Present(Field(body, "image")) && !Field(body, "image").value.Str? ==> r == Fail(500, ServerError)
    ensures Present(Field(body, "image")) && Field(body, "image").value.Str? && !keySet ==> r == Fail(500, MissingKey)
    ensures Present(Field(body, "image")) && Field(body, "image").value.Str? && keySet ==> r == FromUpstream(parse, upstream)
  {
    var image := Field(body, "image");
      if !Present(image) then Fail(400, MissingImage)
      else if StringMethodError(image, "image", "substring").Some? then Fail(500, ServerError)
      else if !keySet then Fail(500, MissingKey)
      else FromUpstream(parse, upstream)
  }
}
