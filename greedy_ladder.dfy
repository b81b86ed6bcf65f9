/**
 * The ladder the DeepSeek handlers of index.js and server/index.js share:
 * parse the reply whole; failing that, parse the greedy brace span
 * `/\{[\s\S]*\}/` exactly as matched (no cleaning); failing that, give up.
 */
module GreedyLadder {
  import opened Wrappers
  import opened JsValues
  import opened JsText
  import opened Patterns

  /** How the ladder ended; a failure keeps the message of the first parse's error. */
  datatype Extraction =
    | Direct(value: Json)               // the reply parsed whole
    | Extracted(value: Json)            // the brace span parsed
    | Unparsable(directError: string)   // the brace span did not parse
    | NoObject(directError: string)     // no `{` is followed by a `}`

  /** The brace step, entered with the error that sent the ladder there. */
  function BraceStep(parse: Parser, content: string, directError: string): (r: Extraction)
    ensures !r.Direct?
    ensures r.NoObject? <==> forall a, b :: 0 <= a < b < |content| && content[a] == '{' ==> content[b] != '}'
    ensures r.Extracted? ==> GreedyBrace(content).Some? && parse(GreedyBrace(content).value) == Parsed(r.value)
    ensures r.Unparsable? <==> GreedyBrace(content).Some? && parse(GreedyBrace(content).value).SyntaxError?
    ensures (r.NoObject? || r.Unparsable?) ==> r.directError == directError
  {
    match GreedyBrace(content)
    case None => NoObject(directError)
    case Some(m) =>
      match parse(m)
      case Parsed(v) => Extracted(v)
      case SyntaxError(_) => Unparsable(directError)
  }

  function ParseOrGreedyBrace(parse: Parser, content: string): (r: Extraction)
    ensures r.Direct? <==> parse(content).Parsed?
    ensures r.Direct? ==> r.value == parse(content).value
    ensures parse(content).SyntaxError? ==> r == BraceStep(parse, content, parse(content).message)
  {
    match parse(content)
    case Parsed(v) => Direct(v)
    case SyntaxError(e) => BraceStep(parse, content, e)
  }

  /**
   * A reply P + "{" + X + "}" + S with no `{` in P and no `}` in S that does
   * not parse whole is decided by parsing "{" + X + "}": the span runs from
   * the first `{` to the last `}`, whatever braces X holds.
   */
  lemma {:induction false} BracedReply(parse: Parser, p: string, x: string, sfx: string)
    requires '{' !in p && '}' !in sfx
    ensures var c := p + "{" + x + "}" + sfx;
      GreedyBrace(c) == Some("{" + x + "}")
    ensures var c := p + "{" + x + "}" + sfx;
      parse(c).SyntaxError? ==>
        ParseOrGreedyBrace(parse, c) == (match parse("{" + x + "}")
                                         case Parsed(v) => Extracted(v)
                                         case SyntaxError(_) => Unparsable(parse(c).message))
  {
    var c := p + "{" + x + "}" + sfx;
    var i := |p|;
    var j := |p| + |x| + 2;
    assert c[i] == '{' && c[j - 1] == '}';
    forall k | 0 <= k < i
      ensures c[k] != '{'
    {
      assert c[k] == p[k];
    }
    forall k | j <= k < |c|
      ensures c[k] != '}'
    {
      assert c[k] == sfx[k - j];
    }
    var sp := GreedyBraceSpan(c);
    assert sp.Some? by {
      assert i < j - 1;
    }
    assert sp.value.start == i by {
      assert !(sp.value.start < i);
      assert !(i < sp.value.start);
    }
    assert sp.value.end == j by {
      assert !(sp.value.end < j);
      assert !(j < sp.value.end);
    }
    assert c[i..j] == "{" + x + "}";
  }
}
