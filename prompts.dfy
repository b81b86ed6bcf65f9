/**
 * The text the DeepSeek handlers build for the model.  All three builders print
 * a food's ingredients the same way, one line per element of the
 * `ingredients` array, and throw on a `null` element.
 */
module Prompts {
  import opened Wrappers
  import opened JsValues
  import opened JsText

  /** Lines, each ended by "\n". */
  function Unlines(lines: seq<string>): string {
    if lines == [] then "" else lines[0] + "\n" + Unlines(lines[1..])
  }

  lemma {:induction false} UnlinesAppend(a: seq<string>, b: seq<string>)
    ensures Unlines(a + b) == Unlines(a) + Unlines(b)
    decreases |a|
  {
    if a == [] {
      assert a + b == b;
    } else {
      assert (a + b)[1..] == a[1..] + b;
      UnlinesAppend(a[1..], b);
    }
  }

  lemma {:induction false} UnlinesOne(line: string)
    ensures Unlines([line]) == line + "\n"
  {
    assert [line][1..] == [];
  }

  /** Adding one line to the text adds that line and a newline. */
  lemma {:induction false} UnlinesSnoc(lines: seq<string>, line: string)
    ensures Unlines(lines + [line]) == Unlines(lines) + line + "\n"
  {
    UnlinesAppend(lines, [line]);
    UnlinesOne(line);
  }

  /** Appending a line to a text that ends with some lines. */
  lemma {:induction false} AppendLineTo(prefix: string, lines: seq<string>, line: string)
    ensures prefix + Unlines(lines) + line + "\n" == prefix + Unlines(lines + [line])
  {
    UnlinesSnoc(lines, line);
  }

  /** A blank line adds just a newline. */
  lemma {:induction false} UnlinesBlank(lines: seq<string>)
    ensures Unlines(lines + [""]) == Unlines(lines) + "\n"
  {
    UnlinesSnoc(lines, "");
  }

  /** Lines, then a blank line and a last line with no newline after it. */
  lemma {:induction false} JoinBlankThen(lines: seq<string>, last: string)
    ensures Join(lines + ["", last], '\n') == Unlines(lines) + "\n" + last
  {
    JoinAfterUnlines(lines, ["", last]);
    assert ["", last][1..] == [last];
  }

  /** Newline-ended lines followed by a joined tail read as one joined text. */
  lemma {:induction false} JoinAfterUnlines(a: seq<string>, b: seq<string>)
    requires |b| >= 1
    ensures Join(a + b, '\n') == Unlines(a) + Join(b, '\n')
    decreases |a|
  {
    if a == [] {
      assert a + b == b;
    } else {
      assert (a + b)[1..] == a[1..] + b;
      JoinAfterUnlines(a[1..], b);
    }
  }

  /**
   * `- ${i.name} (${i.amount}): ${i.calories} calories, ${i.protein}g protein, ${i.fat}g fat, ${i.carbs}g carbs`
   * for an element that is not null (on null it throws instead); a missing
   * member prints as "undefined".
   */
  function IngredientLine(ingredient: Json): string
  {
    "- " + ToText(Member(ingredient, "name")) + " (" + ToText(Member(ingredient, "amount")) + "): "
    + ToText(Member(ingredient, "calories")) + " calories, "
    + ToText(Member(ingredient, "protein")) + "g protein, "
    + ToText(Member(ingredient, "fat")) + "g fat, "
    + ToText(Member(ingredient, "carbs")) + "g carbs"
  }

  /** The message of the TypeError that `ingredient.name` throws on a null element. */
  const NullIngredient := "Cannot read properties of null (reading 'name')"

  /** `line` of each element, in order; `None` when some element is null (reading `null.name` throws). */
  function LinesOf(items: seq<Json>, line: Json -> string): (r: Option<seq<string>>)
    ensures r.None? <==> exists i :: 0 <= i < |items| && items[i].Null?
    ensures r.Some? ==> |r.value| == |items| && forall i {:trigger line(items[i])} :: 0 <= i < |items| ==> r.value[i] == line(items[i])
  {
    if items == [] then Some([])
    else
      var init := items[..|items| - 1];
      var last := items[|items| - 1];
      assert forall i :: 0 <= i < |init| ==> init[i] == items[i];
      match LinesOf(init, line)
      case None => None
      case Some(lines) => if last.Null? then None else Some(lines + [line(last)])
  }

  /** One ingredient line per element, in order. */
  function IngredientLines(items: seq<Json>): Option<seq<string>> {
    LinesOf(items, IngredientLine)
  }

  /** The ingredients of `data` when `data.ingredients` is an array: `data.ingredients && Array.isArray(data.ingredients)`. */
  function IngredientArray(data: Json): (r: Option<seq<Json>>)
    ensures r.Some? <==> Member(data, "ingredients").Some? && Member(data, "ingredients").value.Arr?
  {
    match Member(data, "ingredients")
    case Some(Arr(items)) => Some(items)
    case _ => None
  }

  /** The ingredient lines of `data`: none when `data.ingredients` is not an array. */
  function IngredientBlock(data: Json): (r: Option<seq<string>>)
    ensures IngredientArray(data).None? ==> r == Some([])
    ensures IngredientArray(data).Some? ==> r == IngredientLines(IngredientArray(data).value)
  {
    match IngredientArray(data)
    case None => Some([])
    case Some(items) => IngredientLines(items)
  }

  /**
   * The `for ... of` / `forEach` loop that appends `line` of each element and
   * a newline to `text`; `None` when it hits a null element and throws.
   */
  method AppendLines(text: string, items: seq<Json>, line: Json -> string) returns (r: Option<string>)
    ensures r.None? <==> LinesOf(items, line).None?
    ensures r.Some? ==> r.value == text + Unlines(LinesOf(items, line).value)
  {
    var acc := text;
    var i := 0;
    while i < |items|
      invariant 0 <= i <= |items|
      invariant LinesOf(items[..i], line).Some?
      invariant acc == text + Unlines(LinesOf(items[..i], line).value)
    {
      assert items[..i + 1][..i] == items[..i];
      if items[i].Null? {
        assert items[i] == items[..i + 1][i];
        return None;
      }
      UnlinesAppend(LinesOf(items[..i], line).value, [line(items[i])]);
      UnlinesOne(line(items[i]));
      acc := acc + line(items[i]) + "\n";
      i := i + 1;
    }
    assert items[..i] == items;
    return Some(acc);
  }

  /**
   * `if (data.ingredients && Array.isArray(data.ingredients)) { prompt += "Ingredients:\n"; ...forEach... }`:
   * a header and one line per ingredient, or nothing when there is no array.
   */
  function IngredientSection(data: Json): (r: Option<seq<string>>)
    ensures IngredientArray(data).None? ==> r == Some([])
    ensures IngredientArray(data).Some? ==> (r.None? <==> IngredientLines(IngredientArray(data).value).None?)
    ensures r.Some? && IngredientArray(data).Some? ==> r.value == ["Ingredients:"] + IngredientLines(IngredientArray(data).value).value
  {
    match IngredientArray(data)
    case None => Some([])
    case Some(items) =>
      match IngredientLines(items)
      case None => None
      case Some(lines) => Some(["Ingredients:"] + lines)
  }

  /** The ingredient loop behind an `Array.isArray` guard, appending to `text`; `None` when it throws on a null ingredient. */
  method AppendIngredientBlock(text: string, data: Json) returns (r: Option<string>)
    ensures r.None? <==> IngredientBlock(data).None?
    ensures r.Some? ==> r.value == text + Unlines(IngredientBlock(data).value)
  {
    var items := IngredientArray(data);
    if items.None? {
      assert text + Unlines([]) == text;
      return Some(text);
    }
    r := AppendLines(text, items.value, IngredientLine);
  }

  /** The `if` block itself, appending to `text`; `None` when it throws on a null ingredient. */
  method AppendIngredientSection(text: string, data: Json) returns (r: Option<string>)
    ensures r.None? <==> IngredientSection(data).None?
    ensures r.Some? ==> r.value == text + Unlines(IngredientSection(data).value)
  {
    var items := IngredientArray(data);
    if items.None? {
      assert text + Unlines([]) == text;
      return Some(text);
    }
    r := AppendLines(text + "Ingredients:" + "\n", items.value, IngredientLine);
    if r.Some? {
      AppendAfterHeader(text, "Ingredients:", IngredientLines(items.value).value);
    }
  }

  /** A header line followed by lines, appended to a text. */
  lemma {:induction false} AppendAfterHeader(text: string, header: string, lines: seq<string>)
    ensures text + header + "\n" + Unlines(lines) == text + Unlines([header] + lines)
  {
    UnlinesAppend([header], lines);
    UnlinesOne(header);
  }
}
