/**
 * functions/v1-index.js `analyzeFoodImage`, a callable function: it prefixes
 * a bare base64 image into a `data:` URI (RFC 2397), asks the chat-completion
 * service about it and reads the reply by an inverted ladder: first the
 * "```json\n" block or the LAZY brace span, whose failure to parse is an
 * error; only when neither matches, the reply parsed whole; else `{rawText}`.
 */
module V1Functions {
  import opened Wrappers
  import opened JsValues
  import opened JsText
  import opened Patterns
  import opened Upstream

  /** A callable's outcome: a returned value, or a thrown `HttpsError` with its code and message. */
  datatype CallResult = Returned(value: Json) | Raised(code: string, message: string)

  const DataScheme := "data:"
  const JpegPrefix := "data:image/jpeg;base64,"
  const ParseFailure := "Failed to parse analysis results"
  const AnalysisFailed := "Failed to analyze food image: "
  const InvalidServiceResponse := "Invalid response from image analysis service"

  /** `image.startsWith('data:') ? image : \`data:image/jpeg;base64,${image}\``. */
  function WithDataPrefix(image: string): (r: string)
    ensures StartsWith(image, DataScheme) ==> r == image
    ensures !StartsWith(image, DataScheme) ==> r == JpegPrefix + image
    ensures StartsWith(r, DataScheme)
  {
    if StartsWith(image, DataScheme) then image
    else
      assert (JpegPrefix + image)[..5] == JpegPrefix[..5];
      JpegPrefix + image
  }

  /** Prefixing twice is prefixing once. */
  lemma {:induction false} WithDataPrefixIdempotent(image: string)
    ensures WithDataPrefix(WithDataPrefix(image)) == WithDataPrefix(image)
  {
  }

  /** `{ rawText: content }`. */
  function RawTextObject(content: string): Json {
    Obj(map["rawText" := Str(content)])
  }

  /** `content.match(/```json\n([\s\S]*?)\n```/) || content.match(/{[\s\S]*?}/)`, as `match[0]`. */
  function LazyCandidate(content: string): Option<string> {
    if JsonFence(content).Some? then JsonFence(content) else LazyBrace(content)
  }

  /** The reading of a string reply, v1-index.js:83-114. */
  function ExtractAnalysis(parse: Parser, content: string): (r: CallResult)
    // a matched candidate decides alone: the whole reply is not parsed
    ensures LazyCandidate(content).Some? && parse(Cleaned(LazyCandidate(content).value)).Parsed?
        ==> r == Returned(parse(Cleaned(LazyCandidate(content).value)).value)
    ensures LazyCandidate(content).Some? && parse(Cleaned(LazyCandidate(content).value)).SyntaxError?
        ==> r == Raised("internal", ParseFailure)
    // with no match the reply is parsed whole, and kept as `{rawText}` if that fails
    ensures LazyCandidate(content).None? && parse(content).Parsed? ==> r == Returned(parse(content).value)
    ensures LazyCandidate(content).None? && parse(content).SyntaxError? ==> r == Returned(RawTextObject(content))
  {
    match LazyCandidate(content)
    case Some(m) =>
      (match parse(Cleaned(m))
       case Parsed(v) => Returned(v)
       case SyntaxError(_) => Raised("internal", ParseFailure))
    case None =>
      match parse(content)
      case Parsed(v) => Returned(v)
      case SyntaxError(_) => Returned(RawTextObject(content))
  }

  /**
   * The lazy brace stops at the first `}`: a reply "{" + X + "}" + Y + "}"
   * with no `}` in X (a nested object, say) and no json fence yields the
   * candidate "{" + X + "}", cut before the rest of the object.
   */
  lemma {:induction false} LazyBraceCutsNestedObject(x: string, y: string)
    requires '}' !in x
    requires !Contains("{" + x + "}" + y + "}", JsonFenceOpen)
    ensures LazyCandidate("{" + x + "}" + y + "}") == Some("{" + x + "}")
  {
    var c := "{" + x + "}" + y + "}";
    assert JsonFenceSpan(c).None?;
    assert c[0] == '{';
    FirstChar(c, '{', 0);
    IndexOfFinds(c, "{", 0, 0) by {
      OccursAtChar(c, '{', 0);
    }
    var close := |x| + 1;
    assert c[close] == '}';
    forall k | 1 <= k < close
      ensures c[k] != '}'
    {
      assert c[k] == x[k - 1];
    }
    FirstChar(c, '}', 1);
    var found := IndexOf(c, "}", 1);
    assert found == Some(close);
    assert c[..close + 1] == "{" + x + "}";
  }

  /** Every thrown error is re-thrown as an "internal" `HttpsError` whose message says what failed. */
  function Internal(message: string): CallResult {
    Raised("internal", AnalysisFailed + message)
  }

  /**
   * The callable of v1-index.js:12-127 on the payload `data`; `upstream`
   * gives the service's answer for each image URL.
   */
  function AnalyzeFoodImage(data: Json, upstream: string -> FetchResult, parse: Parser): (r: CallResult)
    // a falsy payload or a missing image is refused before anything else
    ensures !Present(MemberOf(Some(data), "image")) ==> r == Raised("invalid-argument", "No image provided")
    // an image that is not a string has no `startsWith`
    ensures Present(Member(data, "image")) && !Member(data, "image").value.Str?
        ==> r == Internal(NotAFunction("data.image", "startsWith"))
    // the service sees the prefixed image
    ensures Present(Member(data, "image")) && Member(data, "image").value.Str?
        ==> r == FromFetch(parse, upstream(WithDataPrefix(Member(data, "image").value.s)))
  {
    if !Truthy(data) || !Present(Member(data, "image")) then Raised("invalid-argument", "No image provided")
    else
      var image := Member(data, "image");
      match StringMethodError(image, "data.image", "startsWith")
      case Some(message) => Internal(message)
      case None => FromFetch(parse, upstream(WithDataPrefix(image.value.s)))
  }

  /** The steps after `fetch`: a failed request or a non-ok status is wrapped as "internal". */
  function FromFetch(parse: Parser, fetched: FetchResult): (r: CallResult)
    ensures fetched.Rejected? ==> r == Internal(fetched.message)
    ensures fetched.NotOk? ==> r == Internal("API returned " + IntToString(fetched.status))
    ensures fetched.Body? ==> r == FromBody(parse, fetched.data)
  {
    match fetched
    case Rejected(message) => Internal(message)
    case NotOk(status) => Internal("API returned " + IntToString(status))
    case Body(body) => FromBody(parse, body)
  }

  /** The steps after `response.json()`. */
  function FromBody(parse: Parser, body: Json): (r: CallResult)
    ensures body.Null? ==> r == Internal(ReadOfNothing(Some(Null), "choices"))
    ensures !body.Null? && ChoiceContent(body).None? ==> r == Raised("internal", InvalidServiceResponse)
    ensures !body.Null? && ChoiceContent(body).Some? && ChoiceContent(body).value.Str?
        ==> r == ExtractAnalysis(parse, ChoiceContent(body).value.s)
    // `content.match` on a value that is not a string throws inside the parsing `try`
    ensures !body.Null? && ChoiceContent(body).Some? && !ChoiceContent(body).value.Str? ==> r == Raised("internal", ParseFailure)
  {
    if body.Null? then Internal(ReadOfNothing(Some(Null), "choices"))
    else
      match ChoiceContent(body)
      case None => Raised("internal", InvalidServiceResponse)
      case Some(content) =>
        if content.Str? then ExtractAnalysis(parse, content.s) else Raised("internal", ParseFailure)
  }
}
