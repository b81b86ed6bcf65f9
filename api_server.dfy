/**
 * api-server/server.js: the CORS allow-list built from ALLOWED_ORIGINS and the
 * origin callback that consults it, the `checkApiKey` middleware, and the
 * `/api/analyze-food` handler, which runs the same ladder as server.js but
 * behind the middleware and with a log line that needs the content to be a string.
 */
module ApiServer {
  import opened Wrappers
  import opened JsValues
  import opened JsText
  import opened Upstream
  import opened AnalyzeServer

  const DefaultOrigin := "http://localhost:3000"
  const CorsRefusal := "The CORS policy for this site does not allow access from the specified Origin."

  /**
   * `ALLOWED_ORIGINS ? ALLOWED_ORIGINS.split(',') : ['http://localhost:3000']`,
   * with `None` for an unset variable; an empty value is falsy too.
   */
  function AllowedOrigins(env: Option<string>): (r: seq<string>)
    ensures |r| >= 1
    ensures env.Some? && env.value != "" ==> r == Split(env.value, ',') && Join(r, ',') == env.value
    ensures env.None? || env.value == "" ==> r == [DefaultOrigin]
    ensures forall i :: 0 <= i < |r| ==> ',' !in r[i]
  {
    if env.Some? && env.value != "" then
      JoinSplit(env.value, ',');
      Split(env.value, ',')
    else [DefaultOrigin]
  }

  /** What the origin callback hands to `callback`: allow, or an Error with its message. */
  datatype CorsDecision = Allow | Deny(message: string)

  /** The origin callback of api-server/server.js:37-47, for the request's Origin header (`None` when absent). */
  function OriginDecision(allowed: seq<string>, origin: Option<string>): (r: CorsDecision)
    // no Origin (or an empty one) is always allowed
    ensures origin.None? || origin.value == "" ==> r == Allow
    // otherwise exactly the listed strings are, compared as they are
    ensures origin.Some? && origin.value != "" ==> (r == Allow <==> exists i :: 0 <= i < |allowed| && allowed[i] == origin.value)
    ensures r.Deny? ==> r.message == CorsRefusal
  {
    if origin.None? || origin.value == "" then Allow
    else if origin.value in allowed then Allow
    else Deny(CorsRefusal)
  }

  /**
   * Under ALLOWED_ORIGINS = E, a non-empty Origin O is let through exactly
   * when O is one of the comma-separated pieces of E, spaces included;
   * without E only "http://localhost:3000" is.
   */
  lemma {:induction false} OriginUnderEnvironment(env: Option<string>, o: string)
    requires o != ""
    ensures env.Some? && env.value != "" ==>
      (OriginDecision(AllowedOrigins(env), Some(o)) == Allow <==> o in Split(env.value, ','))
    ensures env.None? || env.value == "" ==>
      (OriginDecision(AllowedOrigins(env), Some(o)) == Allow <==> o == DefaultOrigin)
  {
  }

  /** A listed origin with a space after the comma is only matched with that space. */
  lemma {:induction false} SpacesAreKept(a: string, b: string)
    requires ',' !in a && ',' !in b && b != ""
    requires b != a
    ensures OriginDecision(AllowedOrigins(Some(a + ", " + b)), Some(" " + b)) == Allow
    ensures OriginDecision(AllowedOrigins(Some(a + ", " + b)), Some(b)) != Allow
  {
    var e := a + ", " + b;
    assert e == a + [','] + (" " + b);
    SplitAround(a, " " + b, ',');
    NoSeparatorSplit(a, ',');
    assert ',' !in " " + b by {
      assert forall i :: 1 <= i < |" " + b| ==> (" " + b)[i] == b[i - 1];
    }
    NoSeparatorSplit(" " + b, ',');
    assert Split(e, ',') == [a, " " + b];
    assert b != " " + b by {
      assert |b| != |" " + b|;
    }
  }

  /** `checkApiKey`: `None` means `next()` is called; otherwise the 500 it answers. */
  function CheckApiKey(keySet: bool): (r: Option<Reply>)
    ensures r.None? <==> keySet
    ensures r.Some? ==> r.value == Fail(500, MissingKey)
  {
    if keySet then None else Some(Fail(500, MissingKey))
  }

  /** The reply content once the envelope checks pass: the log line calls `content.substring`. */
  function ReplyFromContent(parse: Parser, content: Json): (r: Reply)
    ensures content.Str? ==> r == Ok(ExtractData(parse, content.s))
    ensures !content.Str? ==> r == Fail(500, ServerError)
  {
    if content.Str? then Ok(ExtractData(parse, content.s)) else Fail(500, ServerError)
  }

  /** The route of api-server/server.js:78-202, behind `checkApiKey`. */
  function AnalyzeFood(body: map<string, Json>, keySet: bool, upstream: FetchResult, parse: Parser): (r: Reply)
    // without the key the route is never entered, so even a request without an image gets the 500
    ensures !keySet ==> r == Fail(500, MissingKey)
    ensures keySet && !Present(Field(body, "image")) ==> r == Fail(400, MissingImage)
    ensures keySet && Present(Field(body, "image")) && !Field(body, "image").value.Str? ==> r == Fail(500, ServerError)
    ensures upstream.NotOk? && keySet && Present(Field(body, "image")) && Field(body, "image").value.Str?
        ==> r == Fail(upstream.status, "OpenAI API error: " + IntToString(upstream.status))
    // every string reply that passes the envelope checks succeeds, through the shared ladder
    ensures upstream.Body? && !upstream.data.Null? && ChoiceContent(upstream.data).Some? && ChoiceContent(upstream.data).value.Str?
            && keySet && Present(Field(body, "image")) && Field(body, "image").value.Str?
        ==> r == Ok(ExtractData(parse, ChoiceContent(upstream.data).value.s))
    // a rejected `fetch` and a null body end in the outer catch
    ensures upstream.Rejected? && keySet && Present(Field(body, "image")) && Field(body, "image").value.Str?
        ==> r == Fail(500, ServerError)
    ensures upstream.Body? && upstream.data.Null? && keySet && Present(Field(body, "image")) && Field(body, "image").value.Str?
        ==> r == Fail(500, ServerError)
    // the guard refuses a reply without a truthy content
    ensures upstream.Body? && !upstream.data.Null? && ChoiceContent(upstream.data).None?
            && keySet && Present(Field(body, "image")) && Field(body, "image").value.Str?
        ==> r == Fail(500, InvalidResponse)
    // a content that is not a string breaks the `content.substring` log line
    ensures upstream.Body? && !upstream.data.Null? && ChoiceContent(upstream.data).Some? && !ChoiceContent(upstream.data).value.Str?
            && keySet && Present(Field(body, "image")) && Field(body, "image").value.Str?
        ==> r == Fail(500, ServerError)
  {
    match CheckApiKey(keySet)
    case Some(refusal) => refusal
    case None =>
      var image := Field(body, "image");
      if !Present(image) then Fail(400, MissingImage)
      else if StringMethodError(image, "image", "substring").Some? then Fail(500, ServerError)
      else
        match upstream
        case Rejected(_) => Fail(500, ServerError)
        case NotOk(status) => Fail(status, "OpenAI API error: " + IntToString(status))
        case Body(data) =>
          if data.Null? then Fail(500, ServerError)
          else
            match ChoiceContent(data)
            case None => Fail(500, InvalidResponse)
            case Some(content) => ReplyFromContent(parse, content)
  }
}
