/**
 * The JavaScript string operations the handlers rely on: `trim`, `indexOf`,
 * `lastIndexOf`, `startsWith`, `split` and `join` with a one-character
 * separator, decimal printing of integers and `parseInt(s, 10)`.
 * Strings are sequences of characters.
 */
module JsText {
  import opened Wrappers

  /** ECMAScript WhiteSpace and LineTerminator code points: what `trim` and `parseInt` skip. */
  predicate IsSpace(c: char) {
    c == '\t' || c == '\n' || c == '\U{000B}' || c == '\U{000C}' || c == '\r' || c == ' '
    || c == '\U{00A0}' || c == '\U{1680}' || ('\U{2000}' <= c <= '\U{200A}')
    || c == '\U{2028}' || c == '\U{2029}' || c == '\U{202F}' || c == '\U{205F}'
    || c == '\U{3000}' || c == '\U{FEFF}'
  }

  predicate AllSpace(s: string) {
    forall i :: 0 <= i < |s| ==> IsSpace(s[i])
  }

  /** The leading run of white space removed. */
  function TrimStart(s: string): (r: string)
    ensures |r| <= |s| && r == s[|s| - |r|..]
    ensures AllSpace(s[..|s| - |r|])
    ensures r == [] || !IsSpace(r[0])
  {
    if s != [] && IsSpace(s[0]) then
      var r := TrimStart(s[1..]);
      assert s[..|s| - |r|] == [s[0]] + s[1..][..|s| - 1 - |r|];
      r
    else s
  }

  /** The trailing run of white space removed. */
  function TrimEnd(s: string): (r: string)
    ensures |r| <= |s| && r == s[..|r|]
    ensures AllSpace(s[|r|..])
    ensures r == [] || !IsSpace(r[|r| - 1])
  {
    if s != [] && IsSpace(s[|s| - 1]) then TrimEnd(s[..|s| - 1]) else s
  }

  /** `s.trim()`. */
  function Trim(s: string): (r: string)
    ensures |r| <= |s|
    ensures r == [] || (!IsSpace(r[0]) && !IsSpace(r[|r| - 1]))
    // a slice of the input with only white space cut off either end
    ensures exists i, j :: 0 <= i <= j <= |s| && r == s[i..j] && AllSpace(s[..i]) && AllSpace(s[j..])
  {
    var t := TrimStart(s);
    var r := TrimEnd(t);
    TrimmedSlice(s, t, r);
    r
  }

  /** A suffix cut off after a space prefix, then a prefix cut off before a space suffix, is a slice between two space runs. */
  lemma {:induction false} TrimmedSlice(s: string, t: string, r: string)
    requires |t| <= |s| && t == s[|s| - |t|..] && AllSpace(s[..|s| - |t|])
    requires |r| <= |t| && r == t[..|r|] && AllSpace(t[|r|..])
    ensures exists i, j :: 0 <= i <= j <= |s| && r == s[i..j] && AllSpace(s[..i]) && AllSpace(s[j..])
  {
    var i, j := |s| - |t|, |s| - |t| + |r|;
    assert r == s[i..j];
    assert s[j..] == t[|r|..];
  }

  lemma {:induction false} TrimStartSpaces(w: string, x: string)
    requires AllSpace(w)
    ensures TrimStart(w + x) == TrimStart(x)
  {
    if w == [] {
      assert w + x == x;
    } else {
      assert (w + x)[1..] == w[1..] + x;
      TrimStartSpaces(w[1..], x);
    }
  }

  lemma {:induction false} TrimEndSpaces(x: string, w: string)
    requires AllSpace(w)
    ensures TrimEnd(x + w) == TrimEnd(x)
  {
    if w == [] {
      assert x + w == x;
    } else {
      assert (x + w)[..|x + w| - 1] == x + w[..|w| - 1];
      TrimEndSpaces(x, w[..|w| - 1]);
    }
  }

  lemma {:induction false} TrimStartNoSpace(x: string)
    requires x == [] || !IsSpace(x[0])
    ensures TrimStart(x) == x
  {
  }

  lemma {:induction false} TrimEndNoSpace(x: string)
    requires x == [] || !IsSpace(x[|x| - 1])
    ensures TrimEnd(x) == x
  {
  }

  lemma {:induction false} TrimStartKeepsEnd(x: string)
    requires x == [] || !IsSpace(x[|x| - 1])
    ensures TrimStart(x) == [] || !IsSpace(TrimStart(x)[|TrimStart(x)| - 1])
  {
  }

  /** White space around a text does not survive `trim`: `(w1 + x + w2).trim() == x.trim()`. */
  lemma {:induction false} TrimIgnoresSurroundingSpace(w1: string, x: string, w2: string)
    requires AllSpace(w1) && AllSpace(w2)
    ensures Trim(w1 + x + w2) == Trim(x)
  {
    assert w1 + x + w2 == w1 + (x + w2);
    TrimStartSpaces(w1, x + w2);
    TrimTrailingSpace(x, w2);
  }

  /** Trailing white space does not survive `trim`. */
  lemma {:induction false} TrimTrailingSpace(x: string, w: string)
    requires AllSpace(w)
    ensures TrimEnd(TrimStart(x + w)) == TrimEnd(TrimStart(x))
  {
    if TrimStart(x) == [] {
      AllSpaceThenSpace(x, w);
    } else {
      TrimStartSplit(x, w);
      TrimEndSpaces(TrimStart(x), w);
    }
  }

  /** A text that `trimStart` empties, followed by white space, is emptied too. */
  lemma {:induction false} AllSpaceThenSpace(x: string, w: string)
    requires AllSpace(w) && TrimStart(x) == []
    ensures TrimStart(x + w) == []
  {
    assert AllSpace(x) by {
      assert x[..|x|] == x;
    }
    assert AllSpace(x + w);
    AllSpaceTrimStart(x + w);
  }

  /** A trailing newline does not survive `trim`. */
  lemma {:induction false} TrimDropsNewline(x: string)
    ensures Trim(x + "\n") == Trim(x)
  {
    assert AllSpace("\n") by {
      assert "\n"[0] == '\n';
    }
    TrimTrailingSpace(x, "\n");
  }

  lemma {:induction false} AllSpaceTrimStart(s: string)
    requires AllSpace(s)
    ensures TrimStart(s) == []
  {
    if s != [] {
      AllSpaceTrimStart(s[1..]);
    }
  }

  lemma {:induction false} TrimStartSplit(x: string, w: string)
    requires TrimStart(x) != []
    ensures TrimStart(x + w) == TrimStart(x) + w
  {
    if x != [] && IsSpace(x[0]) {
      assert (x + w)[1..] == x[1..] + w;
      TrimStartSplit(x[1..], w);
    }
  }

  /** A leading word with no white space in it survives `trim`. */
  lemma {:induction false} TrimKeepsLeadingWord(w: string, x: string)
    requires w != [] && forall i :: 0 <= i < |w| ==> !IsSpace(w[i])
    ensures StartsWith(Trim(w + x), w)
  {
    var s := w + x;
    assert s[0] == w[0];
    TrimStartNoSpace(s);
    var r := TrimEnd(s);
    assert s[|w| - 1] == w[|w| - 1];
    assert |r| >= |w|;
    assert r[..|w|] == s[..|w|];
    assert s[..|w|] == w;
  }

  /** `trim` is idempotent. */
  lemma {:induction false} TrimIdempotent(s: string)
    ensures Trim(Trim(s)) == Trim(s)
  {
    var r := Trim(s);
    if r != [] {
      TrimStartNoSpace(r);
      TrimEndNoSpace(r);
    }
  }

  /** `pat` occurs in `s` at index `k`. */
  predicate OccursAt(s: string, pat: string, k: nat) {
    k + |pat| <= |s| && s[k..k + |pat|] == pat
  }

  /** `s.indexOf(pat, from)`, with `None` for -1. */
  function IndexOf(s: string, pat: string, from: nat): (r: Option<nat>)
    decreases |s| - from
    ensures r.Some? ==> from <= r.value && OccursAt(s, pat, r.value)
    ensures forall k: nat :: from <= k && (r.None? || k < r.value) ==> !OccursAt(s, pat, k)
  {
    if from + |pat| > |s| then None
    else if OccursAt(s, pat, from) then Some(from)
    else IndexOf(s, pat, from + 1)
  }

  /** An occurrence with none before it (from `from` on) is the one `indexOf` finds. */
  lemma {:induction false} IndexOfFinds(s: string, pat: string, from: nat, k: nat)
    requires from <= k && OccursAt(s, pat, k)
    requires forall j: nat :: from <= j < k ==> !OccursAt(s, pat, j)
    ensures IndexOf(s, pat, from) == Some(k)
  {
  }

  /** With no occurrence from `from` on, `indexOf` gives -1. */
  lemma {:induction false} IndexOfMisses(s: string, pat: string, from: nat)
    requires forall j: nat :: from <= j ==> !OccursAt(s, pat, j)
    ensures IndexOf(s, pat, from) == None
  {
  }

  lemma {:induction false} OccursAtChar(s: string, c: char, k: nat)
    ensures OccursAt(s, [c], k) <==> k < |s| && s[k] == c
  {
    if k < |s| && s[k] == c {
      assert s[k..k + 1] == [c];
    }
  }

  /** `s.includes(pat)`. */
  predicate Contains(s: string, pat: string) {
    IndexOf(s, pat, 0).Some?
  }

  /** `s.lastIndexOf(c)`, with `None` for -1. */
  function LastIndexOf(s: string, c: char): (r: Option<nat>)
    ensures r.Some? ==> r.value < |s| && s[r.value] == c
    ensures forall k :: 0 <= k < |s| && (r.None? || r.value < k) ==> s[k] != c
  {
    if s == [] then None
    else if s[|s| - 1] == c then Some(|s| - 1)
    else LastIndexOf(s[..|s| - 1], c)
  }

  /** `s.startsWith(p)`. */
  predicate StartsWith(s: string, p: string) {
    |p| <= |s| && s[..|p|] == p
  }

  /** `parts.join(sep)` with a one-character separator. */
  function Join(parts: seq<string>, sep: char): string {
    if |parts| == 0 then ""
    else if |parts| == 1 then parts[0]
    else parts[0] + [sep] + Join(parts[1..], sep)
  }

  /**
   * `s.split(sep)` with a one-character separator: the pieces between
   * separators, at least one.  Its contract determines it: the pieces hold no
   * separator and joining them gives back `s`.
   */
  function Split(s: string, sep: char): (r: seq<string>)
    ensures |r| >= 1
    ensures forall i :: 0 <= i < |r| ==> sep !in r[i]
  {
    if s == [] then [""]
    else
      var rest := Split(s[1..], sep);
      if s[0] == sep then [""] + rest
      else [[s[0]] + rest[0]] + rest[1..]
  }

  /** Joining the pieces gives back the text: `s.split(sep).join(sep) == s`. */
  lemma {:induction false} JoinSplit(s: string, sep: char)
    ensures Join(Split(s, sep), sep) == s
  {
    if s != [] {
      JoinSplit(s[1..], sep);
      var rest := Split(s[1..], sep);
      if s[0] == sep {
        assert Split(s, sep)[1..] == rest;
        assert s == [sep] + s[1..];
      } else {
        var r := Split(s, sep);
        if |rest| == 1 {
          assert s == [s[0]] + s[1..];
        } else {
          assert r[1..] == rest[1..];
          assert Join(rest, sep) == rest[0] + [sep] + Join(rest[1..], sep);
          assert s == [s[0]] + s[1..];
        }
      }
    }
  }

  lemma {:induction false} JoinAppend(a: seq<string>, b: seq<string>, sep: char)
    requires |a| >= 1 && |b| >= 1
    ensures Join(a + b, sep) == Join(a, sep) + [sep] + Join(b, sep)
  {
    if |a| == 1 {
      assert (a + b)[1..] == b;
    } else {
      assert (a + b)[1..] == a[1..] + b;
      JoinAppend(a[1..], b, sep);
    }
  }

  /** `split` undoes `join` when no piece holds the separator. */
  lemma {:induction false} SplitJoin(parts: seq<string>, sep: char)
    requires |parts| >= 1
    requires forall i :: 0 <= i < |parts| ==> sep !in parts[i]
    ensures Split(Join(parts, sep), sep) == parts
  {
    if |parts| == 1 {
      NoSeparatorSplit(parts[0], sep);
    } else {
      SplitJoin(parts[1..], sep);
      NoSeparatorSplit(parts[0], sep);
      SplitAround(parts[0], Join(parts[1..], sep), sep);
      assert [parts[0]] + parts[1..] == parts;
    }
  }

  lemma {:induction false} NoSeparatorSplit(s: string, sep: char)
    requires sep !in s
    ensures Split(s, sep) == [s]
  {
    if s != [] {
      NoSeparatorSplit(s[1..], sep);
      assert [s[0]] + s[1..] == s;
    }
  }

  /** Splitting at one separator splits each side on its own: `(a + sep + b).split(sep)`. */
  lemma {:induction false} SplitAround(a: string, b: string, sep: char)
    ensures Split(a + [sep] + b, sep) == Split(a, sep) + Split(b, sep)
  {
    if a == [] {
      assert a + [sep] + b == [sep] + b;
      assert ([sep] + b)[1..] == b;
    } else {
      assert (a + [sep] + b)[1..] == a[1..] + [sep] + b;
      SplitAround(a[1..], b, sep);
      if a[0] == sep {
      } else {
        assert Split(a, sep)[1..] + Split(b, sep) == (Split(a, sep) + Split(b, sep))[1..];
      }
    }
  }

  /** A line that holds no separator stays one piece in front of the rest. */
  lemma {:induction false} SplitFirstLine(a: string, rest: string, sep: char)
    requires sep !in a
    ensures Split(a + [sep] + rest, sep) == [a] + Split(rest, sep)
  {
    SplitAround(a, rest, sep);
    NoSeparatorSplit(a, sep);
  }

  function DigitChar(d: nat): (c: char)
    requires d < 10
    ensures '0' <= c <= '9' && c as int - '0' as int == d
  {
    ('0' as int + d) as char
  }

  predicate IsDigit(c: char) {
    '0' <= c <= '9'
  }

  /** Decimal digits of a natural number, most significant first, no leading zeros. */
  function NatToString(n: nat): (r: string)
    ensures |r| >= 1
    ensures forall i :: 0 <= i < |r| ==> IsDigit(r[i])
    ensures |r| > 1 ==> r[0] != '0'
  {
    if n < 10 then [DigitChar(n)] else NatToString(n / 10) + [DigitChar(n % 10)]
  }

  /** `String(n)` for an integer (exact; JavaScript's exponent notation above 1e21 is not modelled). */
  function IntToString(n: int): (r: string)
    ensures |r| >= 1 && r[0] != ' '
  {
    if n < 0 then "-" + NatToString(-n) else NatToString(n)
  }

  function DigitValue(c: char): (d: nat)
    requires IsDigit(c)
    ensures d < 10
  {
    c as int - '0' as int
  }

  /** The value of a string of decimal digits. */
  function DigitsValue(s: string): nat
    requires forall i :: 0 <= i < |s| ==> IsDigit(s[i])
  {
    if s == [] then 0 else DigitsValue(s[..|s| - 1]) * 10 + DigitValue(s[|s| - 1])
  }

  /** The longest prefix of `s` made of decimal digits. */
  function LeadingDigits(s: string): (r: string)
    ensures |r| <= |s| && r == s[..|r|]
    ensures forall i :: 0 <= i < |r| ==> IsDigit(r[i])
    ensures |r| < |s| ==> !IsDigit(s[|r|])
  {
    if s != [] && IsDigit(s[0]) then [s[0]] + LeadingDigits(s[1..]) else []
  }

  /** The value of the leading decimal digits of `s`; `None` when `s` does not start with a digit. */
  function ParseDigits(s: string): (r: Option<nat>)
    ensures r.Some? <==> s != [] && IsDigit(s[0])
  {
    var digits := LeadingDigits(s);
    if digits == [] then None else Some(DigitsValue(digits))
  }

  /**
   * `parseInt(s, 10)`: leading white space is skipped, then an optional sign,
   * then the longest run of decimal digits; `None` stands for NaN, the result
   * when no digit follows the sign.
   */
  function ParseInt(s: string): (r: Option<int>)
  {
    var t := TrimStart(s);
    if t != [] && t[0] == '-' then
      match ParseDigits(t[1..])
      case Some(v) => var w: int := v; Some(-w)
      case None => None
    else if t != [] && t[0] == '+' then
      match ParseDigits(t[1..])
      case Some(v) => Some(v)
      case None => None
    else
      match ParseDigits(t)
      case Some(v) => Some(v)
      case None => None
  }

  lemma {:induction false} DigitsValueOfNat(n: nat)
    ensures DigitsValue(NatToString(n)) == n
  {
    if n >= 10 {
      var r := NatToString(n);
      assert r[..|r| - 1] == NatToString(n / 10);
      DigitsValueOfNat(n / 10);
    }
  }

  lemma {:induction false} LeadingDigitsAll(s: string, t: string)
    requires forall i :: 0 <= i < |s| ==> IsDigit(s[i])
    requires t == [] || !IsDigit(t[0])
    ensures LeadingDigits(s + t) == s
  {
    if s != [] {
      assert (s + t)[1..] == s[1..] + t;
      LeadingDigitsAll(s[1..], t);
    }
  }

  /** The leading digits of `String(m)` followed by a non-digit are worth m. */
  lemma {:induction false} ParseDigitsOfNat(m: nat, t: string)
    requires t == [] || !IsDigit(t[0])
    ensures ParseDigits(NatToString(m) + t) == Some(m)
  {
    LeadingDigitsAll(NatToString(m), t);
    DigitsValueOfNat(m);
  }

  /** A text that opens with a digit is read by `parseInt` as its leading digits. */
  lemma {:induction false} ParseIntUnsigned(s: string)
    requires s != [] && IsDigit(s[0])
    ensures ParseInt(s) == ParseDigits(s)
  {
    assert !IsSpace(s[0]);
    TrimStartNoSpace(s);
  }

  /** A minus sign followed by digits worth v is read as -v. */
  lemma {:induction false} ParseIntNegative(s: string, x: string, v: nat, k: int)
    requires s == "-" + x && ParseDigits(x) == Some(v) && k == -(v as int)
    ensures ParseInt(s) == Some(k)
  {
    assert s[1..] == x;
    assert !IsSpace(s[0]);
    TrimStartNoSpace(s);
  }

  /** A negative number prints as its sign before the digits of its magnitude. */
  lemma {:induction false} NegativeText(n: int, t: string)
    requires n < 0
    ensures IntToString(n) + t == "-" + (NatToString(-n) + t)
  {
  }

  /** `parseInt` reads back what `String` prints for a negative number. */
  lemma {:induction false} ParseIntOfNegative(n: int, t: string)
    requires n < 0 && (t == [] || !IsDigit(t[0]))
    ensures ParseInt(IntToString(n) + t) == Some(n)
  {
    var m: nat := -n;
    NegativeText(n, t);
    ParseDigitsOfNat(m, t);
    ParseIntNegative(IntToString(n) + t, NatToString(m) + t, m, n);
  }

  /** `parseInt` reads back what `String` prints for a number that is not negative. */
  lemma {:induction false} ParseIntOfNonNegative(n: int, t: string)
    requires n >= 0 && (t == [] || !IsDigit(t[0]))
    ensures ParseInt(IntToString(n) + t) == Some(n)
  {
    var x := NatToString(n) + t;
    ParseDigitsOfNat(n, t);
    assert x[0] == NatToString(n)[0];
    assert IntToString(n) + t == x;
    ParseIntUnsigned(x);
  }

  /** `parseInt` reads back what `String` prints, whatever non-digit text follows. */
  lemma {:induction false} ParseIntOfIntToString(n: int, t: string)
    requires t == [] || !IsDigit(t[0])
    ensures ParseInt(IntToString(n) + t) == Some(n)
  {
    if n < 0 {
      ParseIntOfNegative(n, t);
    } else {
      ParseIntOfNonNegative(n, t);
    }
  }


}
