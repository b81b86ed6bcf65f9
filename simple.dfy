/**
 * functions/simple.js `parseResult`: parse the reply whole; failing that, take
 * the first fenced block (any tag) or else the greedy brace span, strip the
 * fences, trim and parse that, letting its SyntaxError escape; if neither
 * pattern matches, wrap the reply as `{text: content}`.
 */
module SimpleFunctions {
  import opened Wrappers
  import opened JsValues
  import opened JsText
  import opened Patterns

  /** What a JavaScript function does: return a value or throw an error with a message. */
  datatype Outcome = Returned(value: Json) | Threw(message: string)

  /** `{ text: content }`. */
  function TextObject(content: string): Json {
    Obj(map["text" := Str(content)])
  }

  /** `JSON.parse(t)` as a statement whose SyntaxError propagates. */
  function ParseOrThrow(parse: Parser, t: string): (r: Outcome)
    ensures r.Returned? <==> parse(t).Parsed?
    ensures r.Returned? ==> r.value == parse(t).value
    ensures r.Threw? ==> r.message == parse(t).message
  {
    match parse(t)
    case Parsed(v) => Returned(v)
    case SyntaxError(e) => Threw(e)
  }

  /** `content.match(fence) || content.match(brace)`, as `match[0]`. */
  function Candidate(content: string): Option<string> {
    if AnyFence(content).Some? then AnyFence(content) else GreedyBrace(content)
  }

  function ParseResult(parse: Parser, content: string): (r: Outcome)
    // a reply that parses whole is returned as is, whatever patterns it contains
    ensures parse(content).Parsed? ==> r == Returned(parse(content).value)
    // with no fence pair and no '{' followed by a '}', the reply comes back as `{text}`, unchanged
    ensures parse(content).SyntaxError? && AnyFenceSpan(content).None?
            && (forall a, b :: 0 <= a < b < |content| && content[a] == '{' ==> content[b] != '}')
        ==> r == Returned(TextObject(content))
    // otherwise the cleaned match decides, returning its value or throwing its SyntaxError
    ensures parse(content).SyntaxError? && Candidate(content).Some? ==> r == ParseOrThrow(parse, Cleaned(Candidate(content).value))
    // and with no match at all the reply comes back as `{text}`
    ensures parse(content).SyntaxError? && Candidate(content).None? ==> r == Returned(TextObject(content))
    // it throws exactly when the reply does not parse, a pattern matches, and the cleaned match does not parse
    ensures r.Threw? <==> parse(content).SyntaxError? && Candidate(content).Some? && parse(Cleaned(Candidate(content).value)).SyntaxError?
  {
    match parse(content)
    case Parsed(v) => Returned(v)
    case SyntaxError(_) =>
      match Candidate(content)
      case None => Returned(TextObject(content))
      case Some(m) => ParseOrThrow(parse, Cleaned(m))
  }

  /**
   * Without any "```" in the reply, the candidate is the span from the first
   * `{` to the last `}`, and there is one exactly when some `}` follows the first `{`.
   */
  lemma {:induction false} BraceCandidateWithoutFence(content: string)
    requires !Contains(content, Fence)
    ensures Candidate(content).Some? <==> exists a, b :: 0 <= a < b < |content| && content[a] == '{' && content[b] == '}'
    ensures Candidate(content).Some? ==>
      exists i, j :: 0 <= i < j <= |content| && Candidate(content) == Some(content[i..j])
        && content[i] == '{' && content[j - 1] == '}'
        && (forall k :: 0 <= k < i ==> content[k] != '{')
        && (forall k :: j <= k < |content| ==> content[k] != '}')
  {
    assert AnyFenceSpan(content).None?;
    var sp := GreedyBraceSpan(content);
    if sp.Some? {
      assert Candidate(content) == Some(content[sp.value.start..sp.value.end]);
    }
  }

  /**
   * A reply P + "```json\n" + X + "\n```" + S, with no backtick in P or X,
   * that does not parse whole gives what parsing `X.trim()` gives, whatever
   * braces P and S hold: the fence is tried before the brace span and the
   * cleaner removes exactly the two fences.
   */
  lemma {:induction false} FencedReply(parse: Parser, p: string, x: string, sfx: string)
    requires '`' !in p && '`' !in x
    requires parse(p + JsonFenceOpen + x + JsonFenceClose + sfx).SyntaxError?
    ensures ParseResult(parse, p + JsonFenceOpen + x + JsonFenceClose + sfx) == ParseOrThrow(parse, Trim(x))
  {
    var c := p + JsonFenceOpen + x + JsonFenceClose + sfx;
    AnyFenceInContext(p, x, sfx);
    FencedBlockSlice(p, x, sfx);
    assert Candidate(c) == Some(JsonFenceOpen + x + JsonFenceClose);
    CleanJsonFenceBlock(x);
  }

  /**
   * A fence written "```json " (a space where the newline belongs) loses only
   * its backticks: the text handed to `JSON.parse` still starts with "json".
   */
  lemma {:induction false} SpacedFenceKeepsTag(parse: Parser, x: string)
    requires '`' !in x
    requires parse("```json " + x + Fence).SyntaxError?
    ensures ParseResult(parse, "```json " + x + Fence) == ParseOrThrow(parse, Trim("json " + x))
    ensures StartsWith(Trim("json " + x), "json")
  {
    var c := "```json " + x + Fence;
    AnyFenceSpaced(x);
    assert c[0..|x| + 11] == c;
    StripSpacedJsonFence(x);
    assert "json " + x == "json" + (" " + x);
    TrimKeepsLeadingWord("json", " " + x);
  }
}
