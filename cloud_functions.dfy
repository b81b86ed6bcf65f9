/**
 * functions/index.js: the callable `streamAIResponse`, which cuts the model's
 * reply into overlapping word windows to imitate streaming, and the callable
 * `getNutritionData`, which returns the reply parsed when it is JSON and raw
 * otherwise.  The window sizes come from `Math.random`; here they are a
 * parameter `draw`, chunk index to extra words.
 */
module CloudFunctions {
  import opened Wrappers
  import opened JsValues
  import opened JsText
  import opened Upstream

  const StreamFailed := "Failed to get AI response: API returned "
  const NutritionFailed := "Failed to get nutrition data: API returned "
  const InvalidDeepSeekResponse := "Invalid response from DeepSeek"

  // ---------------------------------------------------------------- the chunker

  /** `Math.floor(Math.random() * 3)`: how many words past three a chunk takes. */
  newtype Offset = x: int | 0 <= x <= 2

  function Min(a: int, b: int): int {
    if a <= b then a else b
  }

  /** `Math.min(i + 3 + r, words.length)`: where the chunk starting at word `start` stops. */
  function ChunkEnd(n: nat, start: nat, r: Offset): nat {
    Min(start + 3 + r as int, n)
  }

  /** `words.slice(start, end).join(' ') + (end < words.length ? ' ' : '')`. */
  function ChunkText(words: seq<string>, start: nat, r: Offset): string
    requires start < |words|
  {
    var end := ChunkEnd(|words|, start, r);
    Join(words[start..end], ' ') + (if end < |words| then " " else "")
  }

  /** The chunks from the `k`-th on: one per fourth word, chunk `k` starting at word `4 * k`. */
  function ChunksFrom(words: seq<string>, k: nat, draw: nat -> Offset): seq<string>
    decreases |words| - 4 * k
  {
    if 4 * k >= |words| then [] else [ChunkText(words, 4 * k, draw(k))] + ChunksFrom(words, k + 1, draw)
  }

  /** The chunks of `content`, cut at single spaces. */
  function Chunks(content: string, draw: nat -> Offset): seq<string> {
    ChunksFrom(Split(content, ' '), 0, draw)
  }

  /** The loop of functions/index.js:83-90, `draw(i / 4)` standing for the random offset of each pass. */
  method SplitIntoChunks(content: string, draw: nat -> Offset) returns (chunks: seq<string>)
    ensures chunks == Chunks(content, draw)
  {
    chunks := [];
    var words := Split(content, ' ');
    var i := 0;
    assert chunks + ChunksFrom(words, 0, draw) == ChunksFrom(words, 0, draw);
    while i < |words|
      invariant i == 4 * |chunks|
      invariant chunks + ChunksFrom(words, |chunks|, draw) == ChunksFrom(words, 0, draw)
      decreases |words| - i
    {
      ghost var k := |chunks|;
      assert i / 4 == k;
      var end := Min(i + 3 + draw(i / 4) as int, |words|);
      var chunk := Join(words[i..end], ' ') + (if end < |words| then " " else "");
      ChunkStep(words, k, draw, end, chunk, chunks);
      chunks := chunks + [chunk];
      i := i + 4;
    }
    assert ChunksFrom(words, |chunks|, draw) == [];
    assert chunks + [] == chunks;
  }

  /** One pass of the loop produces chunk `k`, after the `k` chunks before it. */
  lemma {:induction false} ChunkStep(words: seq<string>, k: nat, draw: nat -> Offset, end: int, chunk: string, done: seq<string>)
    requires 4 * k < |words| && end == Min(4 * k + 3 + draw(k) as int, |words|)
    requires chunk == Join(words[4 * k..end], ' ') + (if end < |words| then " " else "")
    requires done + ChunksFrom(words, k, draw) == ChunksFrom(words, 0, draw)
    ensures (done + [chunk]) + ChunksFrom(words, k + 1, draw) == ChunksFrom(words, 0, draw)
  {
    assert chunk == ChunkText(words, 4 * k, draw(k));
    var rest := ChunksFrom(words, k + 1, draw);
    assert ChunksFrom(words, k, draw) == [chunk] + rest;
    assert done + [chunk] + rest == done + ([chunk] + rest);
  }

  lemma {:induction false} ChunksFromLength(words: seq<string>, k: nat, draw: nat -> Offset)
    requires 4 * k <= |words| + 3
    ensures |ChunksFrom(words, k, draw)| == (|words| + 3 - 4 * k) / 4
    decreases |words| - 4 * k
  {
    if 4 * k < |words| {
      ChunksFromLength(words, k + 1, draw);
    }
  }

  lemma {:induction false} ChunksFromAt(words: seq<string>, k: nat, draw: nat -> Offset, j: nat)
    requires j < |ChunksFrom(words, k, draw)|
    ensures 4 * (k + j) < |words|
    ensures ChunksFrom(words, k, draw)[j] == ChunkText(words, 4 * (k + j), draw(k + j))
    decreases |words| - 4 * k
  {
    if j > 0 {
      ChunksFromAt(words, k + 1, draw, j - 1);
    }
  }

  /** There are ceil(n / 4) chunks for n words; as `split` gives at least one word, at least one chunk. */
  lemma {:induction false} ChunkCount(content: string, draw: nat -> Offset)
    ensures |Chunks(content, draw)| == (|Split(content, ' ')| + 3) / 4
    ensures |Chunks(content, draw)| >= 1
  {
    ChunksFromLength(Split(content, ' '), 0, draw);
  }

  /**
   * Chunk `k` is the words from `4 * k` up to its end, which lies past its
   * start, at most at the last word, and three to five words on unless the
   * words run out; a space follows exactly when words remain after it.
   */
  lemma {:induction false} ChunkShape(content: string, draw: nat -> Offset, k: nat)
    requires k < |Chunks(content, draw)|
    ensures var words := Split(content, ' '); var end := ChunkEnd(|words|, 4 * k, draw(k));
      && 4 * k < end <= |words|
      && (end == |words| || 4 * k + 3 <= end <= 4 * k + 5)
      && Chunks(content, draw)[k] == Join(words[4 * k..end], ' ') + (if end < |words| then " " else "")
  {
    ChunksFromAt(Split(content, ' '), 0, draw, k);
  }

  /** A chunk splits back into exactly its words, and an empty piece after its trailing space. */
  lemma {:induction false} ChunkWords(content: string, draw: nat -> Offset, k: nat)
    requires k < |Chunks(content, draw)|
    ensures var words := Split(content, ' '); var end := ChunkEnd(|words|, 4 * k, draw(k));
      4 * k < end && Split(Chunks(content, draw)[k], ' ') == words[4 * k..end] + (if end < |words| then [""] else [])
  {
    var words := Split(content, ' ');
    ChunksFromAt(words, 0, draw, k);
    var chunk := Chunks(content, draw)[k];
    assert chunk == ChunkText(words, 4 * k, draw(k));
    ChunkTextWords(words, 4 * k, draw(k));
    assert Split(chunk, ' ') == Split(ChunkText(words, 4 * k, draw(k)), ' ');
  }

  lemma {:induction false} ChunkTextWords(words: seq<string>, start: nat, r: Offset)
    requires start < |words|
    requires forall i :: 0 <= i < |words| ==> ' ' !in words[i]
    ensures var end := ChunkEnd(|words|, start, r);
      Split(ChunkText(words, start, r), ' ') == words[start..end] + (if end < |words| then [""] else [])
  {
    var end := ChunkEnd(|words|, start, r);
    var span := words[start..end];
    forall i | 0 <= i < |span|
      ensures ' ' !in span[i]
    {
      assert span[i] == words[start + i];
    }
    SplitJoin(span, ' ');
    var joined := Join(span, ' ');
    if end < |words| {
      SplitAround(joined, "", ' ');
      assert joined + " " == joined + [' '] + "";
      assert Split("", ' ') == [""];
    } else {
      assert joined + "" == joined;
      assert span + [] == span;
    }
  }

  /** Empty content is one empty word, hence one empty chunk. */
  lemma {:induction false} EmptyContent(draw: nat -> Offset)
    ensures Chunks("", draw) == [""]
  {
    var words := Split("", ' ');
    assert words == [""];
    assert words[0..1] == [""];
    assert ChunksFrom(words, 1, draw) == [];
  }

  /** The chunks written one after the other: what a client printing them would show. */
  function Concatenation(chunks: seq<string>): string {
    if chunks == [] then "" else chunks[0] + Concatenation(chunks[1..])
  }

  lemma {:induction false} CoverFrom(words: seq<string>, k: nat, draw: nat -> Offset)
    requires 4 * k < |words|
    requires forall j :: k <= j ==> draw(j) == 1
    ensures Concatenation(ChunksFrom(words, k, draw)) == Join(words[4 * k..], ' ')
    decreases |words| - 4 * k
  {
    var n, s := |words|, 4 * k;
    var end := ChunkEnd(n, s, draw(k));
    var chunks := ChunksFrom(words, k, draw);
    assert chunks[1..] == ChunksFrom(words, k + 1, draw);
    if end == n {
      assert ChunksFrom(words, k + 1, draw) == [];
      assert words[s..end] == words[s..];
    } else {
      assert end == s + 4;
      CoverFrom(words, k + 1, draw);
      assert words[s..] == words[s..end] + words[end..];
      JoinAppend(words[s..end], words[end..], ' ');
    }
  }

  /** When every offset is 1 the chunks are disjoint and, put together, give back the content. */
  lemma {:induction false} WholeCover(content: string, draw: nat -> Offset)
    requires forall j :: draw(j) == 1
    ensures Concatenation(Chunks(content, draw)) == content
  {
    var words := Split(content, ' ');
    JoinSplit(content, ' ');
    CoverFrom(words, 0, draw);
    assert words[0..] == words;
  }

  /** An offset of 0 on chunk `k` drops word `4 * k + 3`: no chunk starts at or before it and ends after it. */
  lemma {:induction false} ZeroOffsetDrops(content: string, draw: nat -> Offset, k: nat)
    requires draw(k) == 0 && 4 * k + 3 < |Split(content, ' ')|
    ensures var n := |Split(content, ' ')|;
      forall j :: 0 <= j < |Chunks(content, draw)| ==> !(4 * j <= 4 * k + 3 < ChunkEnd(n, 4 * j, draw(j)))
  {
  }

  /** An offset of 2 on chunk `k` gives word `4 * k + 4` to chunk `k` as well as to chunk `k + 1`, which starts with it. */
  lemma {:induction false} TwoOffsetRepeats(content: string, draw: nat -> Offset, k: nat)
    requires draw(k) == 2 && 4 * k + 4 < |Split(content, ' ')|
    ensures k + 1 < |Chunks(content, draw)|
    ensures 4 * k + 4 < ChunkEnd(|Split(content, ' ')|, 4 * k, draw(k))
  {
    ChunkCount(content, draw);
  }

  /**
   * With a multiple of four words and a last offset of 0, the last chunk holds
   * three words and a trailing space: the last word is in no chunk.
   */
  lemma {:induction false} LastWordDropped(content: string, draw: nat -> Offset)
    requires |Split(content, ' ')| % 4 == 0
    requires draw(|Split(content, ' ')| / 4 - 1) == 0
    ensures var words := Split(content, ' '); var n := |words|; var chunks := Chunks(content, draw);
      && |chunks| == n / 4
      && chunks[|chunks| - 1] == Join(words[n - 4..n - 1], ' ') + " "
  {
    var n := |Split(content, ' ')|;
    ChunkCount(content, draw);
    ChunkShape(content, draw, n / 4 - 1);
  }

  // ---------------------------------------------------------------- the callables

  /** What a callable returns: `{success: true, ...}` in three shapes, or `{success: false, error}`. */
  datatype CallResult =
    | Streamed(chunks: seq<string>, fullContent: string)   // `{success, chunks, fullContent}`
    | NutritionData(value: Json)                           // `{success, nutritionData}`
    | RawContent(content: Option<Json>)                    // `{success, content}`
    | CallFailed(error: string)                            // `{success: false, error: error.message}`

  /** `!data.messages || !Array.isArray(data.messages)`, which throws itself on a null `data`. */
  function MessagesCheck(data: Json): (r: Option<string>)
    ensures data.Null? ==> r == Some(ReadOfNothing(Some(Null), "messages"))
    ensures !data.Null? ==> (r.None? <==> Member(data, "messages").Some? && Member(data, "messages").value.Arr?)
    ensures !data.Null? && r.Some? ==> r.value == "Messages array is required"
  {
    if data.Null? then Some(ReadOfNothing(Some(Null), "messages"))
    else
      match Member(data, "messages")
      case Some(Arr(_)) => None
      case _ => Some("Messages array is required")
  }

  /**
   * `streamAIResponse`, functions/index.js:38-104: `apiKey` is
   * `functions.config().openai?.api_key` and `fetched` the outcome of the call
   * to the chat API.  Every throw ends in the `catch` that returns its message.
   */
  method StreamAIResponse(data: Json, apiKey: Option<Json>, fetched: FetchResult, draw: nat -> Offset) returns (r: CallResult)
    ensures !r.NutritionData? && !r.RawContent?
    ensures MessagesCheck(data).Some? ==> r == CallFailed(MessagesCheck(data).value)
    ensures MessagesCheck(data).None? && !Present(apiKey) ==> r == CallFailed("API key not configured")
    ensures MessagesCheck(data).None? && Present(apiKey) ==>
      match fetched
      case Rejected(m) => r == CallFailed(m)
      case NotOk(status) => r == CallFailed(StreamFailed + IntToString(status))
      case Body(body) =>
        if body.Null? then r == CallFailed(ReadOfNothing(Some(Null), "choices"))
        else if ChoiceMessage(body).None? then r == CallFailed("Invalid response from OpenAI")
        else
          var content := Member(ChoiceMessage(body).value, "content");
          if StringMethodError(content, "content", "split").Some? then r == CallFailed(StringMethodError(content, "content", "split").value)
          else r == Streamed(Chunks(content.value.s, draw), content.value.s)
  {
    var check := MessagesCheck(data);
    if check.Some? {
      return CallFailed(check.value);
    }
    if !Present(apiKey) {
      return CallFailed("API key not configured");
    }
    match fetched {
      case Rejected(m) =>
        return CallFailed(m);
      case NotOk(status) =>
        return CallFailed(StreamFailed + IntToString(status));
      case Body(body) =>
        if body.Null? {
          return CallFailed(ReadOfNothing(Some(Null), "choices"));
        }
        var message := ChoiceMessage(body);
        if message.None? {
          return CallFailed("Invalid response from OpenAI");
        }
        var content := Member(message.value, "content");
        var failure := StringMethodError(content, "content", "split");
        if failure.Some? {
          return CallFailed(failure.value);
        }
        var chunks := SplitIntoChunks(content.value.s, draw);
        return Streamed(chunks, content.value.s);
    }
  }

  /**
   * `getNutritionData`, functions/index.js:165-235: the key comes with the
   * request; the reply is `JSON.parse(content)` when that succeeds and the
   * content itself otherwise, with no search for a JSON object inside it.
   * `JSON.parse` reads `String(content)`.
   */
  function GetNutritionData(data: Json, fetched: FetchResult, parse: Parser): (r: CallResult)
    ensures !r.Streamed?
    ensures MessagesCheck(data).Some? ==> r == CallFailed(MessagesCheck(data).value)
    ensures MessagesCheck(data).None? && !Present(Member(data, "apiKey")) ==> r == CallFailed("DeepSeek API key is required")
    ensures MessagesCheck(data).None? && Present(Member(data, "apiKey")) ==>
      match fetched
      case Rejected(m) => r == CallFailed(m)
      case NotOk(status) => r == CallFailed(NutritionFailed + IntToString(status))
      case Body(body) =>
        if body.Null? then r == CallFailed(ReadOfNothing(Some(Null), "choices"))
        else if ChoiceMessage(body).None? then r == CallFailed(InvalidDeepSeekResponse)
        else
          var content := Member(ChoiceMessage(body).value, "content");
          match parse(ToText(content))
          case Parsed(v) => r == NutritionData(v)
          case SyntaxError(_) => r == RawContent(content)
    // a parse failure is still a success, carrying the reply untouched
    ensures r.RawContent? ==> fetched.Body? && parse(ToText(r.content)).SyntaxError?
    ensures r.NutritionData? ==> exists t :: parse(t) == Parsed(r.value)
  {
    match MessagesCheck(data)
    case Some(e) => CallFailed(e)
    case None =>
      if !Present(Member(data, "apiKey")) then CallFailed("DeepSeek API key is required")
      else
        match fetched
        case Rejected(m) => CallFailed(m)
        case NotOk(status) => CallFailed(NutritionFailed + IntToString(status))
        case Body(body) =>
          if body.Null? then CallFailed(ReadOfNothing(Some(Null), "choices"))
          else
            match ChoiceMessage(body)
            case None => CallFailed(InvalidDeepSeekResponse)
            case Some(message) =>
              var content := Member(message, "content");
              match parse(ToText(content))
              case Parsed(v) => NutritionData(v)
              case SyntaxError(_) => RawContent(content)
  }

  /**
   * A string reply that does not parse whole comes back raw, even when an
   * object inside it would parse.
   */
  lemma {:induction false} NoExtraction(data: Json, body: Json, parse: Parser, text: string)
    requires MessagesCheck(data).None? && Present(Member(data, "apiKey"))
    requires !body.Null? && ChoiceMessage(body).Some? && Member(ChoiceMessage(body).value, "content") == Some(Str(text))
    requires parse(text).SyntaxError?
    ensures GetNutritionData(data, Body(body), parse) == RawContent(Some(Str(text)))
  {
  }
}
