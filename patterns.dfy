/**
 * The regular expressions the handlers match model replies against, each
 * specified by the index search that decides where its leftmost match starts
 * and ends (the leftmost-first semantics of JavaScript's `String.prototype.match`
 * and `RegExp.prototype.exec`), and the global `replace` that strips fences.
 */
module Patterns {
  import opened Wrappers
  import opened JsText

  /** The match `s[start..end]`. */
  datatype Span = Span(start: nat, end: nat)

  predicate SpanIn(s: string, sp: Span) {
    sp.start <= sp.end <= |s|
  }

  /** `match[0]` for a match that was found. */
  function Matched(s: string, m: Option<Span>): Option<string>
    requires m.Some? ==> SpanIn(s, m.value)
  {
    match m
    case Some(sp) => Some(s[sp.start..sp.end])
    case None => None
  }

  lemma {:induction false} FirstChar(s: string, c: char, from: nat)
    ensures IndexOf(s, [c], from).Some? ==> s[IndexOf(s, [c], from).value] == c
    ensures forall k :: from <= k < |s| && (IndexOf(s, [c], from).None? || k < IndexOf(s, [c], from).value) ==> s[k] != c
  {
    var r := IndexOf(s, [c], from);
    if r.Some? {
      OccursAtChar(s, c, r.value);
    }
    forall k | from <= k < |s| && (r.None? || k < r.value)
      ensures s[k] != c
    {
      OccursAtChar(s, c, k);
    }
  }

  /**
   * `/\{[\s\S]*\}/`: the leftmost `{` that some `}` follows, up to the LAST `}`.
   * Since any `}` after a later `{` also follows the first one, the match
   * starts at the first `{`.
   */
  function GreedyBraceSpan(s: string): (r: Option<Span>)
    ensures r.Some? ==> SpanIn(s, r.value) && r.value.start < r.value.end
    ensures r.Some? ==> s[r.value.start] == '{' && s[r.value.end - 1] == '}'
    ensures r.Some? ==> forall k :: 0 <= k < r.value.start ==> s[k] != '{'
    ensures r.Some? ==> forall k :: r.value.end <= k < |s| ==> s[k] != '}'
    ensures r.None? <==> forall a, b :: 0 <= a < b < |s| && s[a] == '{' ==> s[b] != '}'
  {
    FirstChar(s, '{', 0);
    var open := IndexOf(s, "{", 0);
    var close := LastIndexOf(s, '}');
    if open.Some? && close.Some? && open.value < close.value then
      Some(Span(open.value, close.value + 1))
    else
      None
  }

  /**
   * `/{[\s\S]*?}/`: the first `{`, up to the FIRST `}` after it.
   */
  function LazyBraceSpan(s: string): (r: Option<Span>)
    ensures r.Some? ==> SpanIn(s, r.value) && r.value.start < r.value.end
    ensures r.Some? ==> s[r.value.start] == '{' && s[r.value.end - 1] == '}'
    ensures r.Some? ==> forall k :: 0 <= k < r.value.start ==> s[k] != '{'
    ensures r.Some? ==> forall k :: r.value.start < k < r.value.end - 1 ==> s[k] != '}'
    ensures r.None? <==> forall a, b :: 0 <= a < b < |s| && s[a] == '{' ==> s[b] != '}'
  {
    FirstChar(s, '{', 0);
    var open := IndexOf(s, "{", 0);
    if open.None? then None
    else
      FirstChar(s, '}', open.value + 1);
      var close := IndexOf(s, "}", open.value + 1);
      if close.None? then None
      else Some(Span(open.value, close.value + 1))
  }

  const JsonFenceOpen := "```json\n"
  const JsonFenceClose := "\n```"
  const Fence := "```"

  /**
   * `/```json\n([\s\S]*?)\n```/`: the first "```json\n", up to the first
   * "\n```" that starts at or after its end.  A later opening fence could only
   * find a closing fence the first one finds too, so the match starts at the
   * first one.
   */
  function JsonFenceSpan(s: string): (r: Option<Span>)
    ensures r.Some? ==> SpanIn(s, r.value) && r.value.start + 12 <= r.value.end
    ensures r.Some? ==> OccursAt(s, JsonFenceOpen, r.value.start) && OccursAt(s, JsonFenceClose, r.value.end - 4)
    ensures r.Some? ==> forall k: nat :: k < r.value.start ==> !OccursAt(s, JsonFenceOpen, k)
    ensures r.Some? ==> forall k: nat :: r.value.start + 8 <= k < r.value.end - 4 ==> !OccursAt(s, JsonFenceClose, k)
    // there is no match exactly when no "\n```" starts at or after the end of any "```json\n"
    ensures r.None? <==> forall a: nat, b: nat :: OccursAt(s, JsonFenceOpen, a) && a + 8 <= b ==> !OccursAt(s, JsonFenceClose, b)
  {
    match IndexOf(s, JsonFenceOpen, 0)
    case None => None
    case Some(open) =>
      match IndexOf(s, JsonFenceClose, open + 8)
      case None => None
      case Some(close) => Some(Span(open, close + 4))
  }

  /**
   * `/```(?:json)?\s*([\s\S]*?)\s*```/`: the first "```", up to the next "```"
   * that starts at least three characters later.  The optional tag and the
   * white space only shift the captured group, never the ends of `match[0]`,
   * and a later opening fence could only find a closing fence the first one
   * finds too.
   */
  function AnyFenceSpan(s: string): (r: Option<Span>)
    ensures r.Some? ==> SpanIn(s, r.value) && r.value.start + 6 <= r.value.end
    ensures r.Some? ==> OccursAt(s, Fence, r.value.start) && OccursAt(s, Fence, r.value.end - 3)
    ensures r.Some? ==> forall k: nat :: k < r.value.start ==> !OccursAt(s, Fence, k)
    ensures r.Some? ==> forall k: nat :: r.value.start + 3 <= k < r.value.end - 3 ==> !OccursAt(s, Fence, k)
  {
    match IndexOf(s, Fence, 0)
    case None => None
    case Some(open) =>
      match IndexOf(s, Fence, open + 3)
      case None => None
      case Some(close) => Some(Span(open, close + 3))
  }

  /** There is no match exactly when no "```" starts three or more characters after another. */
  lemma {:induction false} AnyFenceSpanNone(s: string)
    ensures AnyFenceSpan(s).None? <==> forall a: nat, b: nat :: OccursAt(s, Fence, a) && a + 3 <= b ==> !OccursAt(s, Fence, b)
  {
  }

  function GreedyBrace(s: string): Option<string> { Matched(s, GreedyBraceSpan(s)) }
  function LazyBrace(s: string): Option<string> { Matched(s, LazyBraceSpan(s)) }
  function JsonFence(s: string): Option<string> { Matched(s, JsonFenceSpan(s)) }
  function AnyFence(s: string): Option<string> { Matched(s, AnyFenceSpan(s)) }

  /**
   * `s.replace(/```json\n|```/g, '')`: a left-to-right scan that, at each
   * position, drops "```json\n" if it starts there, else "```", else keeps
   * one character.  Both alternatives begin with a backtick, so any other
   * character is kept at once.
   */
  function StripFences(s: string): string
    decreases |s|
  {
    if s == [] then []
    else if s[0] != '`' then [s[0]] + StripFences(s[1..])
    else if StartsWith(s, JsonFenceOpen) then StripFences(s[8..])
    else if StartsWith(s, Fence) then StripFences(s[3..])
    else [s[0]] + StripFences(s[1..])
  }

  /** The text a ladder hands to `JSON.parse` after a match: fences stripped, then trimmed. */
  function Cleaned(m: string): string {
    Trim(StripFences(m))
  }

  /** Text without backticks passes through the fence stripper unchanged. */
  lemma {:induction false} StripPlainPrefix(x: string, t: string)
    requires '`' !in x
    ensures StripFences(x + t) == x + StripFences(t)
  {
    if x == [] {
      assert x + t == t;
    } else {
      var s := x + t;
      assert s[0] == x[0];
      assert s[1..] == x[1..] + t;
      StripPlainPrefix(x[1..], t);
      assert [x[0]] + x[1..] == x;
    }
  }

  /** "```json\n" + X + "\n```" with no backtick in X strips to X + "\n". */
  lemma {:induction false} StripJsonFenceBlock(x: string)
    requires '`' !in x
    ensures StripFences(JsonFenceOpen + x + JsonFenceClose) == x + "\n"
  {
    var s := JsonFenceOpen + x + JsonFenceClose;
    assert StartsWith(s, JsonFenceOpen);
    assert s[8..] == x + JsonFenceClose;
    StripPlainPrefix(x, JsonFenceClose);
    assert StripFences(JsonFenceClose) == "\n" by {
      var c := JsonFenceClose;
      assert !StartsWith(c, JsonFenceOpen) && !StartsWith(c, Fence);
      assert c[1..] == Fence;
      assert StartsWith(Fence, Fence) && !StartsWith(Fence, JsonFenceOpen);
      assert Fence[3..] == [];
    }
  }

  /** And cleaning it gives `X.trim()`. */
  lemma {:induction false} CleanJsonFenceBlock(x: string)
    requires '`' !in x
    ensures Cleaned(JsonFenceOpen + x + JsonFenceClose) == Trim(x)
  {
    StripJsonFenceBlock(x);
    TrimDropsNewline(x);
  }

  /**
   * A fence opened as "```json " (a space, not a newline) keeps its tag: only
   * the backticks are removed, so the cleaned text starts with "json ".
   */
  lemma {:induction false} StripSpacedJsonFence(x: string)
    requires '`' !in x
    ensures StripFences("```json " + x + Fence) == "json " + x
  {
    var s := "```json " + x + Fence;
    assert !StartsWith(s, JsonFenceOpen) by {
      assert s[7] == ' ';
    }
    assert StartsWith(s, Fence);
    assert s[3..] == "json " + x + Fence;
    StripPlainPrefix("json " + x, Fence);
    assert StartsWith(Fence, Fence) && !StartsWith(Fence, JsonFenceOpen);
    assert Fence[3..] == [];
  }

  lemma {:induction false} OpensWithJsonFence(s: string)
    requires StartsWith(s, JsonFenceOpen)
    ensures s[0] == '`' && s[1] == '`' && s[2] == '`' && s[3] == 'j'
  {
    assert s[..8] == JsonFenceOpen;
    assert s[..8][0] == s[0] && s[..8][1] == s[1] && s[..8][2] == s[2] && s[..8][3] == s[3];
  }

  /** An opening json fence starting one to three characters before another has a backtick where the 'j' must be. */
  lemma {:induction false} NoJsonOpenJustBefore(p: string, rest: string, k: nat)
    requires StartsWith(rest, JsonFenceOpen)
    requires k < |p| <= k + 3
    ensures !OccursAt(p + rest, JsonFenceOpen, k)
  {
    var c := p + rest;
    OpensWithJsonFence(rest);
    assert c[k + 3] == rest[k + 3 - |p|];
    if k + 8 <= |c| {
      assert c[k..k + 8][3] == c[k + 3];
    }
  }

  /** One starting four to seven characters before another would need a backtick inside "json\n". */
  lemma {:induction false} NoJsonOpenOverlapping(p: string, rest: string, k: nat)
    requires StartsWith(rest, JsonFenceOpen)
    requires k + 3 < |p| < k + 8
    ensures !OccursAt(p + rest, JsonFenceOpen, k)
  {
    var c := p + rest;
    OpensWithJsonFence(rest);
    assert c[|p|] == rest[0];
    if k + 8 <= |c| {
      assert c[k..k + 8][|p| - k] == c[|p|];
      assert JsonFenceOpen[|p| - k] != '`';
    }
  }

  /** An opening json fence cannot straddle the end of P when P is followed by one. */
  lemma {:induction false} NoJsonOpenStraddles(p: string, rest: string, k: nat)
    requires IndexOf(p, JsonFenceOpen, 0).None?
    requires StartsWith(rest, JsonFenceOpen)
    requires k < |p|
    ensures !OccursAt(p + rest, JsonFenceOpen, k)
  {
    var c := p + rest;
    if k + 8 <= |p| {
      assert c[k..k + 8] == p[k..k + 8];
      assert !OccursAt(p, JsonFenceOpen, k);
    } else if k + 3 >= |p| {
      NoJsonOpenJustBefore(p, rest, k);
    } else {
      NoJsonOpenOverlapping(p, rest, k);
    }
  }

  /** No closing json fence starts inside X or at its last character. */
  lemma {:induction false} NoJsonCloseInside(c: string, from: nat, x: string, q: nat)
    requires '`' !in x
    requires from + |x| + 4 <= |c| && c[from..from + |x|] == x && c[from + |x|..from + |x| + 4] == JsonFenceClose
    requires from <= q < from + |x|
    ensures !OccursAt(c, JsonFenceClose, q)
  {
    assert c[q + 1] != '`' by {
      if q + 1 < from + |x| {
        assert c[q + 1] == c[from..from + |x|][q + 1 - from];
        assert x[q + 1 - from] in x;
      } else {
        assert c[q + 1] == c[from + |x|..from + |x| + 4][0];
      }
    }
    assert c[q..q + 4][1] == c[q + 1];
    assert JsonFenceClose[1] == '`';
  }

  /** No opening json fence starts inside a prefix P of C that one follows, if none starts inside P alone. */
  lemma {:induction false} NoJsonOpenBefore(c: string, p: string)
    requires IndexOf(p, JsonFenceOpen, 0).None?
    requires |p| <= |c| && c[..|p|] == p && StartsWith(c[|p|..], JsonFenceOpen)
    ensures OccursAt(c, JsonFenceOpen, |p|)
    ensures forall k: nat :: k < |p| ==> !OccursAt(c, JsonFenceOpen, k)
  {
    var rest := c[|p|..];
    assert c == p + rest;
    assert c[|p|..|p| + 8] == rest[..8];
    forall k: nat | k < |p|
      ensures !OccursAt(c, JsonFenceOpen, k)
    {
      NoJsonOpenStraddles(p, rest, k);
    }
  }

  /** No closing json fence starts inside a backtick-free X that one follows. */
  lemma {:induction false} NoJsonCloseWithin(c: string, from: nat, x: string)
    requires '`' !in x
    requires from + |x| + 4 <= |c| && c[from..from + |x|] == x && c[from + |x|..from + |x| + 4] == JsonFenceClose
    ensures forall q: nat :: from <= q < from + |x| ==> !OccursAt(c, JsonFenceClose, q)
  {
    forall q: nat | from <= q < from + |x|
      ensures !OccursAt(c, JsonFenceClose, q)
    {
      NoJsonCloseInside(c, from, x, q);
    }
  }

  /** The json-fence regex matches from the first opening fence to the first closing fence after it. */
  lemma {:induction false} JsonFenceSpanAt(c: string, start: nat, close: nat, end: nat)
    requires OccursAt(c, JsonFenceOpen, start) && forall k: nat :: k < start ==> !OccursAt(c, JsonFenceOpen, k)
    requires start + 8 <= close && OccursAt(c, JsonFenceClose, close)
    requires forall q: nat :: start + 8 <= q < close ==> !OccursAt(c, JsonFenceClose, q)
    requires end == close + 4
    ensures JsonFenceSpan(c) == Some(Span(start, end))
  {
    IndexOfFinds(c, JsonFenceOpen, 0, start);
    IndexOfFinds(c, JsonFenceClose, start + 8, close);
  }

  /** Where the pieces of P + "```json\n" + X + "\n```" + S lie. */
  lemma {:induction false} FencedBlockLayout(p: string, x: string, sfx: string)
    ensures var c := p + JsonFenceOpen + x + JsonFenceClose + sfx;
      var from := |p| + 8;
      && StartsWith(c[|p|..], JsonFenceOpen)
      && from + |x| + 4 <= |c|
      && c[|p|..|p| + 8] == JsonFenceOpen
      && c[from..from + |x|] == x
      && c[from + |x|..from + |x| + 4] == JsonFenceClose
      && c[..|p|] == p
  {
    var rest := JsonFenceOpen + x + JsonFenceClose + sfx;
    var c := p + rest;
    assert c == p + JsonFenceOpen + x + JsonFenceClose + sfx;
    assert c[|p|..] == rest;
    assert c[..|p|] == p;
    assert rest[..8] == JsonFenceOpen;
    assert rest[8..8 + |x|] == x && rest[8 + |x|..12 + |x|] == JsonFenceClose;
  }

  /** The json-fence regex over a string C in which P, the opening fence, X and the closing fence lie in turn. */
  lemma {:induction false} JsonFenceBlockAt(c: string, p: string, x: string)
    requires IndexOf(p, JsonFenceOpen, 0).None?
    requires '`' !in x
    requires |p| + 12 + |x| <= |c| && c[..|p|] == p && StartsWith(c[|p|..], JsonFenceOpen)
    requires c[|p| + 8..|p| + 8 + |x|] == x && c[|p| + 8 + |x|..|p| + 12 + |x|] == JsonFenceClose
    ensures JsonFenceSpan(c) == Some(Span(|p|, |p| + 12 + |x|))
  {
    NoJsonOpenBefore(c, p);
    NoJsonCloseWithin(c, |p| + 8, x);
    JsonFenceSpanAt(c, |p|, |p| + 8 + |x|, |p| + 12 + |x|);
  }

  /**
   * In P + "```json\n" + X + "\n```" + S, with no "```json\n" inside P and no
   * backtick in X, the json-fence regex matches exactly the fenced block,
   * whatever P and S are.
   */
  lemma {:induction false} JsonFenceInContext(p: string, x: string, sfx: string)
    requires IndexOf(p, JsonFenceOpen, 0).None?
    requires '`' !in x
    ensures JsonFenceSpan(p + JsonFenceOpen + x + JsonFenceClose + sfx)
         == Some(Span(|p|, |p| + 12 + |x|))
  {
    FencedBlockLayout(p, x, sfx);
    JsonFenceBlockAt(p + JsonFenceOpen + x + JsonFenceClose + sfx, p, x);
  }

  /** No plain fence starts at or after `from` before the closing fence that ends the block. */
  lemma {:induction false} NoFenceInside(c: string, from: nat, x: string, q: nat)
    requires '`' !in x
    requires from + |x| + 4 <= |c| && c[from..from + |x|] == x && c[from + |x|..from + |x| + 4] == JsonFenceClose
    requires from <= q < from + |x| + 1
    ensures !OccursAt(c, Fence, q)
  {
    assert c[q] != '`' by {
      if q < from + |x| {
        assert c[q] == c[from..from + |x|][q - from];
        assert x[q - from] in x;
      } else {
        assert c[q] == c[from + |x|..from + |x| + 4][0];
      }
    }
    assert c[q..q + 3][0] == c[q];
  }

  /** The any-fence regex matches from the first fence to the next one at least three characters on. */
  lemma {:induction false} AnyFenceSpanAt(c: string, start: nat, close: nat, end: nat)
    requires OccursAt(c, Fence, start) && forall k: nat :: k < start ==> !OccursAt(c, Fence, k)
    requires start + 3 <= close && OccursAt(c, Fence, close)
    requires forall q: nat :: start + 3 <= q < close ==> !OccursAt(c, Fence, q)
    requires end == close + 3
    ensures AnyFenceSpan(c) == Some(Span(start, end))
  {
    IndexOfFinds(c, Fence, 0, start);
    IndexOfFinds(c, Fence, start + 3, close);
  }

  /** No fence starts inside a backtick-free prefix of C. */
  lemma {:induction false} NoFenceInPlainPrefix(c: string, p: string)
    requires '`' !in p && |p| <= |c| && c[..|p|] == p
    ensures forall k: nat :: k < |p| ==> !OccursAt(c, Fence, k)
  {
    forall k: nat | k < |p|
      ensures !OccursAt(c, Fence, k)
    {
      assert c[k] == c[..|p|][k];
      assert p[k] in p;
      if k + 3 <= |c| {
        assert c[k..k + 3][0] == c[k];
      }
    }
  }

  /** No fence starts at the "json\n" of an opening json fence, inside X or at the newline closing it. */
  lemma {:induction false} NoFenceAfterJsonOpen(c: string, at: nat, x: string)
    requires '`' !in x
    requires at + 12 + |x| <= |c| && StartsWith(c[at..], JsonFenceOpen)
    requires c[at + 8..at + 8 + |x|] == x && c[at + 8 + |x|..at + 12 + |x|] == JsonFenceClose
    ensures forall q: nat :: at + 3 <= q < at + 9 + |x| ==> !OccursAt(c, Fence, q)
  {
    forall q: nat | at + 3 <= q < at + 9 + |x|
      ensures !OccursAt(c, Fence, q)
    {
      if q < at + 8 {
        assert c[at..][..8] == JsonFenceOpen;
        assert c[q] == c[at..][..8][q - at];
        assert JsonFenceOpen[q - at] != '`';
        assert c[q..q + 3][0] == c[q];
      } else {
        NoFenceInside(c, at + 8, x, q);
      }
    }
  }

  /**
   * In P + "```json\n" + X + "\n```" + S, with no backtick in P or X, the
   * any-fence regex of functions/simple.js matches exactly the fenced block.
   */
  lemma {:induction false} AnyFenceInContext(p: string, x: string, sfx: string)
    requires '`' !in p && '`' !in x
    ensures AnyFenceSpan(p + JsonFenceOpen + x + JsonFenceClose + sfx)
         == Some(Span(|p|, |p| + 12 + |x|))
  {
    FencedBlockLayout(p, x, sfx);
    AnyFenceBlockAt(p + JsonFenceOpen + x + JsonFenceClose + sfx, p, x);
  }

  /** The any-fence regex over a string C in which P, the opening fence, X and the closing fence lie in turn. */
  lemma {:induction false} AnyFenceBlockAt(c: string, p: string, x: string)
    requires '`' !in p && '`' !in x
    requires |p| + 12 + |x| <= |c| && c[..|p|] == p && StartsWith(c[|p|..], JsonFenceOpen)
    requires c[|p| + 8..|p| + 8 + |x|] == x && c[|p| + 8 + |x|..|p| + 12 + |x|] == JsonFenceClose
    ensures AnyFenceSpan(c) == Some(Span(|p|, |p| + 12 + |x|))
  {
    NoFenceInPlainPrefix(c, p);
    NoFenceAfterJsonOpen(c, |p|, x);
    OpensWithJsonFence(c[|p|..]);
    assert c[|p|..|p| + 3] == Fence by {
      assert c[|p|..][0] == c[|p|] && c[|p|..][1] == c[|p| + 1] && c[|p|..][2] == c[|p| + 2];
    }
    var close := |p| + 9 + |x|;
    assert c[close..close + 3] == Fence by {
      assert c[|p| + 8 + |x|..|p| + 12 + |x|][1..] == c[close..close + 3];
    }
    AnyFenceSpanAt(c, |p|, close, |p| + 12 + |x|);
  }

  /** No fence starts where there is no backtick. */
  lemma {:induction false} NoFenceWithoutBacktick(c: string, from: nat, to: nat)
    requires from <= to <= |c| && '`' !in c[from..to]
    ensures forall q: nat :: from <= q < to ==> !OccursAt(c, Fence, q)
  {
    forall q: nat | from <= q < to
      ensures !OccursAt(c, Fence, q)
    {
      assert c[q] == c[from..to][q - from];
      if q + 3 <= |c| {
        assert c[q..q + 3][0] == c[q];
      }
    }
  }

  /** A fence opened as "```json " (a space, not a newline) still spans the whole of "```json " + X + "```". */
  lemma {:induction false} AnyFenceSpaced(x: string)
    requires '`' !in x
    ensures AnyFenceSpan("```json " + x + Fence) == Some(Span(0, |x| + 11))
  {
    var c := "```json " + x + Fence;
    assert c[..3] == Fence;
    assert c[3..|x| + 8] == "json " + x;
    assert '`' !in "json " + x by {
      assert forall i :: 0 <= i < 5 ==> ("json " + x)[i] == "json "[i];
    }
    NoFenceWithoutBacktick(c, 3, |x| + 8);
    assert c[|x| + 8..|x| + 11] == Fence;
    AnyFenceSpanAt(c, 0, |x| + 8, |x| + 11);
  }

  /** The fenced block of P + "```json\n" + X + "\n```" + S, as a string. */
  lemma {:induction false} FencedBlockSlice(p: string, x: string, sfx: string)
    ensures var c := p + JsonFenceOpen + x + JsonFenceClose + sfx;
      |p| + 12 + |x| <= |c| && c[|p|..|p| + 12 + |x|] == JsonFenceOpen + x + JsonFenceClose
  {
    var c := p + JsonFenceOpen + x + JsonFenceClose + sfx;
    assert c == p + (JsonFenceOpen + x + JsonFenceClose) + sfx;
  }
}
