/**
 * server/index.js, the Flutter app's proxy: `/api/fix-food` and
 * `/api/nutrition` build a prompt with `+=`, send it to the chat-completion
 * service through axios, and read the reply by the parse-or-greedy-brace
 * ladder; a reply that does not parse comes back as a 500 carrying the raw
 * content and the message of the first parse's error.
 */
module FixServer {
  import opened Wrappers
  import opened JsValues
  import opened JsText
  import opened Upstream
  import opened Patterns
  import opened GreedyLadder
  import opened Prompts

  const FixOpening := "Analyze and modify the following food based on instructions:"
  const NutritionOpening := "Calculate accurate nutrition values for the following food:"
  const RespondLine := "Please respond with a valid JSON object using this structure:"
  const ProvideLine := "Please provide a valid JSON " + "response with the following structure:"
  const DefaultInstruction := "Analyze and improve this food"
  const ParseErrorPrefix := "Error parsing JSON from response: "

  /** The example object both modification prompts end with. */
  const FoodSchema :=
    "{\n  \"name\": \"Updated Food Name\",\n  \"calories\": 123,\n  \"protein\": 30,\n  \"fat\": 5,\n  \"carbs\": 20,\n"
    + "  \"ingredients\": [\n"
    + "    {\n      \"name\": \"Ingredient 1\",\n      \"amount\": \"100g\",\n      \"calories\": 100,\n"
    + "      \"protein\": 10,\n      \"fat\": 2,\n      \"carbs\": 5\n    },\n"
    + "    {\n      \"name\": \"Ingredient 2\",\n      \"amount\": \"50g\",\n      \"calories\": 50,\n"
    + "      \"protein\": 5,\n      \"fat\": 1,\n      \"carbs\": 3\n    }\n  ]\n}"

  /** The example object of the query prompt. */
  const NutritionSchema := "{\n  \"calories\": 250,\n  \"protein\": 20,\n  \"fat\": 10, \n  \"carbs\": 15\n}"

  /** The four totals, in the order the prompts print them. */
  const TotalKeys: seq<string> := ["calories", "protein", "fat", "carbs"]

  /** `Total ${key}: ${value}`. */
  function TotalLine(key: string, value: Json): string {
    "Total " + key + ": " + Show(value)
  }

  /** Characters 6 to 8 of a total line are the first three letters of its key. */
  lemma {:induction false} TotalLineKey(key: string, value: Json)
    requires |key| >= 3
    ensures |TotalLine(key, value)| >= 9 && TotalLine(key, value)[6..9] == key[..3]
  {
    var t := TotalLine(key, value);
    assert t == "Total " + (key + ": " + Show(value));
    assert forall i :: 0 <= i < 3 ==> t[6 + i] == key[i];
  }

  /** A total line that starts like the line of `other` has a key that starts like `other`. */
  lemma {:induction false} TotalLinePrefix(key: string, value: Json, other: string)
    requires |key| >= 3 && |other| >= 3
    requires StartsWith(TotalLine(key, value), "Total " + other + ":")
    ensures key[..3] == other[..3]
  {
    TotalLineKey(key, value);
    var t, p := TotalLine(key, value), "Total " + other + ":";
    assert forall i :: 0 <= i < 3 ==> p[6 + i] == other[i];
    assert t[..|p|] == p;
    assert t[6..9] == t[..|p|][6..9];
  }

  /** `Operation type: ${operation_type}\n` when `operation_type` is truthy. */
  function OperationLines(operationType: Option<Json>): (r: seq<string>)
    ensures Present(operationType) ==> r == ["Operation type: " + Show(operationType.value)]
    ensures !Present(operationType) ==> r == []
  {
    if Present(operationType) then ["Operation type: " + Show(operationType.value)] else []
  }

  // ---------------------------------------------------------------- /api/fix-food

  /**
   * The lines of `food_data`, server/index.js:29-33: the name, else 'Unknown',
   * and each total, else '0'.
   */
  function DefaultLines(foodData: Json): seq<string> {
    ["Food: " + Show(OrElse(Member(foodData, "name"), Str("Unknown"))),
     TotalLine("calories", OrElse(Member(foodData, "calories"), Str("0"))),
     TotalLine("protein", OrElse(Member(foodData, "protein"), Str("0"))),
     TotalLine("fat", OrElse(Member(foodData, "fat"), Str("0"))),
     TotalLine("carbs", OrElse(Member(foodData, "carbs"), Str("0")))]
  }

  /** A missing or falsy name prints as "Unknown", a missing or falsy total as "0"; truthy ones print as they are. */
  lemma {:induction false} DefaultsForMissing(foodData: Json, i: nat)
    requires i < 4
    ensures |DefaultLines(foodData)| == 5
    ensures !Present(Member(foodData, "name")) ==> DefaultLines(foodData)[0] == "Food: Unknown"
    ensures Present(Member(foodData, "name")) ==> DefaultLines(foodData)[0] == "Food: " + Show(Member(foodData, "name").value)
    ensures !Present(Member(foodData, TotalKeys[i])) ==> DefaultLines(foodData)[i + 1] == "Total " + TotalKeys[i] + ": 0"
    ensures Present(Member(foodData, TotalKeys[i])) ==>
      DefaultLines(foodData)[i + 1] == TotalLine(TotalKeys[i], Member(foodData, TotalKeys[i]).value)
  {
  }

  /** `instructions || query || 'Analyze and improve this food'`. */
  function FixInstruction(instructions: Option<Json>, query: Option<Json>): (r: string)
    ensures Present(instructions) ==> r == Show(instructions.value)
    ensures !Present(instructions) && Present(query) ==> r == Show(query.value)
    ensures !Present(instructions) && !Present(query) ==> r == DefaultInstruction
  {
    Show(OrElse(instructions, OrElse(query, Str(DefaultInstruction))))
  }

  /** The lines `food_data` contributes: none when it is falsy; `None` when an ingredient is null. */
  function FoodLines(foodData: Option<Json>): Option<seq<string>> {
    if !Present(foodData) then Some([])
    else
      match IngredientSection(foodData.value)
      case None => None
      case Some(section) => Some(DefaultLines(foodData.value) + section)
  }

  /**
   * The lines of the fix-food prompt before the schema, server/index.js:26-48,
   * joined by "\n"; `None` when an ingredient is null.
   */
  function FixPromptLines(foodData: Option<Json>, instructions: Option<Json>, query: Option<Json>, operationType: Option<Json>): Option<seq<string>> {
    match FoodLines(foodData)
    case None => None
    case Some(food) =>
      Some([FixOpening, ""] + food + ["", "Instruction: " + FixInstruction(instructions, query)]
           + OperationLines(operationType) + ["", RespondLine])
  }

  /** Without `food_data` only the instruction is given; with it, its five lines and its ingredient section open the prompt. */
  lemma {:induction false} FixPromptFood(foodData: Option<Json>, instructions: Option<Json>, query: Option<Json>, operationType: Option<Json>)
    ensures !Present(foodData) ==>
      (FixPromptLines(foodData, instructions, query, operationType)
       == Some([FixOpening, "", "", "Instruction: " + FixInstruction(instructions, query)] + OperationLines(operationType) + ["", RespondLine]))
    ensures Present(foodData) ==>
      (FixPromptLines(foodData, instructions, query, operationType).None? <==> IngredientSection(foodData.value).None?)
    ensures Present(foodData) && IngredientSection(foodData.value).Some? ==>
      var lines := FixPromptLines(foodData, instructions, query, operationType).value;
      var section := IngredientSection(foodData.value).value;
      |lines| >= 9 + |section| && lines[2..7] == DefaultLines(foodData.value) && lines[7..7 + |section|] == section
  {
    if !Present(foodData) {
      FixPromptWithoutFood(foodData, instructions, query, operationType);
    } else if IngredientSection(foodData.value).Some? {
      FixPromptWithFood(foodData.value, instructions, query, operationType);
    }
  }

  lemma {:induction false} FixPromptWithoutFood(foodData: Option<Json>, instructions: Option<Json>, query: Option<Json>, operationType: Option<Json>)
    requires !Present(foodData)
    ensures FixPromptLines(foodData, instructions, query, operationType)
       == Some([FixOpening, "", "", "Instruction: " + FixInstruction(instructions, query)] + OperationLines(operationType) + ["", RespondLine])
  {
    var ops := OperationLines(operationType);
    var instr := "Instruction: " + FixInstruction(instructions, query);
    assert FoodLines(foodData) == Some([]);
    assert [FixOpening, ""] + [] + ["", instr] + ops + ["", RespondLine]
        == [FixOpening, "", "", instr] + ops + ["", RespondLine];
  }

  lemma {:induction false} FixPromptWithFood(foodData: Json, instructions: Option<Json>, query: Option<Json>, operationType: Option<Json>)
    requires Present(Some(foodData)) && IngredientSection(foodData).Some?
    ensures var lines := FixPromptLines(Some(foodData), instructions, query, operationType);
      var section := IngredientSection(foodData).value;
      lines.Some? && |lines.value| >= 9 + |section| && lines.value[2..7] == DefaultLines(foodData) && lines.value[7..7 + |section|] == section
  {
    var section := IngredientSection(foodData).value;
    var tail := ["", "Instruction: " + FixInstruction(instructions, query)] + OperationLines(operationType) + ["", RespondLine];
    assert FoodLines(Some(foodData)) == Some(DefaultLines(foodData) + section);
    LinesAfterOpening(FixOpening, DefaultLines(foodData), section, tail);
  }

  /** Where the food's lines and its section fall in a prompt that opens with a line and a blank one. */
  lemma {:induction false} LinesAfterOpening(opening: string, defaults: seq<string>, section: seq<string>, tail: seq<string>)
    requires |defaults| == 5 && |tail| >= 2
    ensures var lines := [opening, ""] + (defaults + section) + tail;
      |lines| >= 9 + |section| && lines[2..7] == defaults && lines[7..7 + |section|] == section
  {
    var lines := [opening, ""] + (defaults + section) + tail;
    assert lines[2..7] == defaults;
    assert lines[7..7 + |section|] == section;
  }

  /** The instruction line comes after the food, and the operation line, when there is one, right after it. */
  lemma {:induction false} FixPromptEnding(foodData: Option<Json>, instructions: Option<Json>, query: Option<Json>, operationType: Option<Json>)
    requires FixPromptLines(foodData, instructions, query, operationType).Some?
    ensures var lines := FixPromptLines(foodData, instructions, query, operationType).value;
      |lines| >= 6 && lines[|lines| - 2..] == ["", RespondLine]
    ensures var lines := FixPromptLines(foodData, instructions, query, operationType).value;
      Present(operationType) ==>
        lines[|lines| - 4] == "Instruction: " + FixInstruction(instructions, query)
        && lines[|lines| - 3] == "Operation type: " + Show(operationType.value)
    ensures var lines := FixPromptLines(foodData, instructions, query, operationType).value;
      !Present(operationType) ==> lines[|lines| - 3] == "Instruction: " + FixInstruction(instructions, query)
  {
    var food := FoodLines(foodData).value;
    var instruction := "Instruction: " + FixInstruction(instructions, query);
    var lines := FixPromptLines(foodData, instructions, query, operationType).value;
    var ops := OperationLines(operationType);
    assert lines == ([FixOpening, ""] + food + [""]) + ([instruction] + ops + ["", RespondLine]);
  }

  /** The prompt of `/api/fix-food`: its lines, a newline and the schema. */
  function FixPrompt(foodData: Option<Json>, instructions: Option<Json>, query: Option<Json>, operationType: Option<Json>): Option<string> {
    match FixPromptLines(foodData, instructions, query, operationType)
    case None => None
    case Some(lines) => Some(Join(lines, '\n') + "\n" + FoodSchema)
  }

  /** server/index.js:29-33, appended to `text`. */
  method AppendDefaults(text: string, foodData: Json) returns (r: string)
    ensures r == text + Unlines(DefaultLines(foodData))
  {
    ghost var lines: seq<string> := [];
    r := text;
    assert r == text + Unlines(lines);
    var line := "Food: " + Show(OrElse(Member(foodData, "name"), Str("Unknown")));
    AppendLineTo(text, lines, line);
    r, lines := r + line + "\n", lines + [line];
    line := TotalLine("calories", OrElse(Member(foodData, "calories"), Str("0")));
    AppendLineTo(text, lines, line);
    r, lines := r + line + "\n", lines + [line];
    line := TotalLine("protein", OrElse(Member(foodData, "protein"), Str("0")));
    AppendLineTo(text, lines, line);
    r, lines := r + line + "\n", lines + [line];
    line := TotalLine("fat", OrElse(Member(foodData, "fat"), Str("0")));
    AppendLineTo(text, lines, line);
    r, lines := r + line + "\n", lines + [line];
    line := TotalLine("carbs", OrElse(Member(foodData, "carbs"), Str("0")));
    AppendLineTo(text, lines, line);
    r, lines := r + line + "\n", lines + [line];
    assert lines == DefaultLines(foodData);
  }

  /** `prompt += \`\nInstruction: ${...}\n\``, then the operation line when `operation_type` is truthy. */
  method AppendInstruction(text: string, ghost lines: seq<string>, instruction: string, operationType: Option<Json>)
    returns (r: string, ghost after: seq<string>)
    requires text == Unlines(lines)
    ensures after == lines + ["", "Instruction: " + instruction] + OperationLines(operationType)
    ensures r == Unlines(after)
  {
    var line := "Instruction: " + instruction;
    UnlinesBlank(lines);
    r, after := text + "\n", lines + [""];
    UnlinesSnoc(after, line);
    r, after := r + line + "\n", after + [line];
    if Present(operationType) {
      var operation := "Operation type: " + Show(operationType.value);
      UnlinesSnoc(after, operation);
      r, after := r + operation + "\n", after + [operation];
    } else {
      assert after + OperationLines(operationType) == after;
    }
  }

  /** `prompt += "\nPlease respond ..."` and the schema, closing the lines so far. */
  method AppendSchema(text: string, ghost lines: seq<string>) returns (r: string)
    requires text == Unlines(lines)
    ensures r == Join(lines + ["", RespondLine], '\n') + "\n" + FoodSchema
  {
    JoinBlankThen(lines, RespondLine);
    r := text + "\n" + RespondLine;
    r := r + "\n" + FoodSchema;
  }

  /** The opening of both modification prompts: `"Analyze and modify ...:\n\n"`. */
  lemma {:induction false} OpeningLines()
    ensures FixOpening + "\n\n" == Unlines([FixOpening, ""])
  {
    UnlinesSnoc([FixOpening], "");
    UnlinesOne(FixOpening);
  }

  /** The `food_data` block of server/index.js:28-46, appended to `text`. */
  method AppendFood(text: string, ghost lines: seq<string>, foodData: Option<Json>) returns (r: Option<string>)
    requires text == Unlines(lines)
    ensures r.None? <==> FoodLines(foodData).None?
    ensures r.Some? ==> r.value == Unlines(lines + FoodLines(foodData).value)
  {
    if !Present(foodData) {
      assert lines + [] == lines;
      return Some(text);
    }
    var withDefaults := AppendDefaults(text, foodData.value);
    r := AppendIngredientSection(withDefaults, foodData.value);
    if r.Some? {
      FoodAppended(lines, foodData, withDefaults, r.value);
    }
  }

  /** The text of the defaults and the ingredient section after `lines` is the text of all the lines. */
  lemma {:induction false} FoodAppended(lines: seq<string>, foodData: Option<Json>, withDefaults: string, r: string)
    requires Present(foodData) && IngredientSection(foodData.value).Some?
    requires withDefaults == Unlines(lines) + Unlines(DefaultLines(foodData.value))
    requires r == withDefaults + Unlines(IngredientSection(foodData.value).value)
    ensures FoodLines(foodData).Some? && r == Unlines(lines + FoodLines(foodData).value)
  {
    var defaults, section := DefaultLines(foodData.value), IngredientSection(foodData.value).value;
    assert FoodLines(foodData).value == defaults + section;
    UnlinesAppendTwo(lines, defaults, section, r);
  }

  /** Two groups of lines appended one after the other. */
  lemma {:induction false} UnlinesAppendTwo(lines: seq<string>, a: seq<string>, b: seq<string>, r: string)
    requires r == Unlines(lines) + Unlines(a) + Unlines(b)
    ensures r == Unlines(lines + (a + b))
  {
    UnlinesAppend(lines, a + b);
    UnlinesAppend(a, b);
    var x, y, z := Unlines(lines), Unlines(a), Unlines(b);
    assert x + y + z == x + (y + z);
  }

  /** The `+=` builder of server/index.js:26-74; `None` when it throws on a null ingredient. */
  method BuildFixPrompt(foodData: Option<Json>, instructions: Option<Json>, query: Option<Json>, operationType: Option<Json>)
    returns (r: Option<string>)
    ensures r == FixPrompt(foodData, instructions, query, operationType)
  {
    var prompt := FixOpening + "\n\n";
    ghost var lines := [FixOpening, ""];
    OpeningLines();
    var withFood := AppendFood(prompt, lines, foodData);
    if withFood.None? {
      return None;
    }
    prompt, lines := withFood.value, lines + FoodLines(foodData).value;
    prompt, lines := AppendInstruction(prompt, lines, FixInstruction(instructions, query), operationType);
    prompt := AppendSchema(prompt, lines);
    return Some(prompt);
  }


  /**
   * When no line holds a newline, the lines of the fix-food prompt are its
   * lines followed by the lines of the schema.
   */
  lemma {:induction false} FixPromptSplits(foodData: Option<Json>, instructions: Option<Json>, query: Option<Json>, operationType: Option<Json>)
    requires FixPromptLines(foodData, instructions, query, operationType).Some?
    requires var lines := FixPromptLines(foodData, instructions, query, operationType).value;
      forall i :: 0 <= i < |lines| ==> '\n' !in lines[i]
    ensures Split(FixPrompt(foodData, instructions, query, operationType).value, '\n')
      == FixPromptLines(foodData, instructions, query, operationType).value + Split(FoodSchema, '\n')
  {
    var lines := FixPromptLines(foodData, instructions, query, operationType).value;
    SchemaFollows(lines, FoodSchema);
  }

  /** Lines without newlines, then a newline and a text, split back into the lines and the text's lines. */
  lemma {:induction false} SchemaFollows(lines: seq<string>, schema: string)
    requires |lines| >= 1 && forall i :: 0 <= i < |lines| ==> '\n' !in lines[i]
    ensures Split(Join(lines, '\n') + "\n" + schema, '\n') == lines + Split(schema, '\n')
  {
    var tail := Split(schema, '\n');
    JoinSplit(schema, '\n');
    JoinAppend(lines, tail, '\n');
    assert Join(lines, '\n') + "\n" + schema == Join(lines + tail, '\n');
    forall i | 0 <= i < |lines + tail|
      ensures '\n' !in (lines + tail)[i]
    {
      if i >= |lines| {
        assert (lines + tail)[i] == tail[i - |lines|];
      }
    }
    SplitJoin(lines + tail, '\n');
  }

  // ---------------------------------------------------------------- /api/nutrition

  /** `if (current_data.key) prompt += \`Total key: ...\n\``, for one key. */
  function TruthyTotal(currentData: Json, key: string): (r: seq<string>)
    ensures Present(Member(currentData, key)) ==> r == [TotalLine(key, Member(currentData, key).value)]
    ensures !Present(Member(currentData, key)) ==> r == []
  {
    if Present(Member(currentData, key)) then [TotalLine(key, Member(currentData, key).value)] else []
  }

  /** The `if` lines for `keys`, in order. */
  function TruthyTotalsOf(currentData: Json, keys: seq<string>): seq<string>
    decreases |keys|
  {
    if keys == [] then [] else TruthyTotal(currentData, keys[0]) + TruthyTotalsOf(currentData, keys[1..])
  }

  /** The totals of server/index.js:178-181: only the truthy ones are printed. */
  function TruthyTotals(currentData: Json): seq<string> {
    TruthyTotal(currentData, "calories") + TruthyTotal(currentData, "protein")
    + TruthyTotal(currentData, "fat") + TruthyTotal(currentData, "carbs")
  }

  /** The four `if`s are the `if` lines for the four keys. */
  lemma {:induction false} TruthyTotalsByKeys(currentData: Json)
    ensures TruthyTotals(currentData) == TruthyTotalsOf(currentData, TotalKeys)
  {
    var keys := TotalKeys;
    assert keys[1..] == ["protein", "fat", "carbs"];
    assert keys[1..][1..] == ["fat", "carbs"];
    assert keys[1..][1..][1..] == ["carbs"];
    assert keys[1..][1..][1..][1..] == [];
  }

  /** Every printed line is the line of a truthy total. */
  lemma {:induction false} PrintedTotalIsTruthy(currentData: Json, keys: seq<string>, k: nat)
    requires k < |TruthyTotalsOf(currentData, keys)|
    ensures exists j :: (0 <= j < |keys| && Present(Member(currentData, keys[j]))
                         && TruthyTotalsOf(currentData, keys)[k] == TotalLine(keys[j], Member(currentData, keys[j]).value))
    decreases |keys|
  {
    var head := TruthyTotal(currentData, keys[0]);
    if k < |head| {
      assert TruthyTotalsOf(currentData, keys)[k] == head[k];
    } else {
      assert TruthyTotalsOf(currentData, keys)[k] == TruthyTotalsOf(currentData, keys[1..])[k - |head|];
      PrintedTotalIsTruthy(currentData, keys[1..], k - |head|);
      var j :| 0 <= j < |keys[1..]| && Present(Member(currentData, keys[1..][j]))
               && TruthyTotalsOf(currentData, keys[1..])[k - |head|] == TotalLine(keys[1..][j], Member(currentData, keys[1..][j]).value);
      assert keys[1..][j] == keys[j + 1];
    }
  }

  /** Every truthy total is printed. */
  lemma {:induction false} TruthyTotalIsPrinted(currentData: Json, keys: seq<string>, j: nat)
    requires j < |keys| && Present(Member(currentData, keys[j]))
    ensures TotalLine(keys[j], Member(currentData, keys[j]).value) in TruthyTotalsOf(currentData, keys)
    decreases |keys|
  {
    var head := TruthyTotal(currentData, keys[0]);
    var rest := TruthyTotalsOf(currentData, keys[1..]);
    assert TruthyTotalsOf(currentData, keys) == head + rest;
    if j == 0 {
      assert head[0] == (head + rest)[0];
    } else {
      assert keys[1..][j - 1] == keys[j];
      TruthyTotalIsPrinted(currentData, keys[1..], j - 1);
      var k :| 0 <= k < |rest| && rest[k] == TotalLine(keys[j], Member(currentData, keys[j]).value);
      assert (head + rest)[|head| + k] == rest[k];
    }
  }

  /**
   * A total is printed exactly when it is truthy: a 0, "" or missing total
   * gives no line that even starts like its line.
   */
  lemma {:induction false} TotalsOnlyWhenTruthy(currentData: Json, i: nat)
    requires i < 4
    ensures var key := TotalKeys[i];
      Present(Member(currentData, key)) ==> TotalLine(key, Member(currentData, key).value) in TruthyTotals(currentData)
    ensures var key := TotalKeys[i]; var totals := TruthyTotals(currentData);
      !Present(Member(currentData, key)) ==> forall k :: 0 <= k < |totals| ==> !StartsWith(totals[k], "Total " + key + ":")
  {
    var key := TotalKeys[i];
    var totals := TruthyTotals(currentData);
    TruthyTotalsByKeys(currentData);
    if Present(Member(currentData, key)) {
      TruthyTotalIsPrinted(currentData, TotalKeys, i);
    }
    forall k | 0 <= k < |totals| && StartsWith(totals[k], "Total " + key + ":")
      ensures Present(Member(currentData, key))
    {
      PrintedTotalIsTruthy(currentData, TotalKeys, k);
      var j :| 0 <= j < 4 && Present(Member(currentData, TotalKeys[j]))
               && totals[k] == TotalLine(TotalKeys[j], Member(currentData, TotalKeys[j]).value);
      SameTotalKey(i, j, Member(currentData, TotalKeys[j]).value, totals[k]);
    }
  }

  /** A total line that starts like the line of key `i` is the line of key `i`. */
  lemma {:induction false} SameTotalKey(i: nat, j: nat, value: Json, line: string)
    requires i < 4 && j < 4 && line == TotalLine(TotalKeys[j], value)
    requires StartsWith(line, "Total " + TotalKeys[i] + ":")
    ensures i == j
  {
    var a, b := TotalKeys[i], TotalKeys[j];
    assert |a| >= 3 && |b| >= 3 by {
      assert forall n :: 0 <= n < 4 ==> |TotalKeys[n]| >= 3;
    }
    TotalLinePrefix(b, value, a);
    TotalKeyPrefixes(i, j);
  }

  /** The four keys differ in their first three letters. */
  lemma {:induction false} TotalKeyPrefixes(i: nat, j: nat)
    requires i < 4 && j < 4 && TotalKeys[i][..3] == TotalKeys[j][..3]
    ensures i == j
  {
    assert TotalKeys[i][0] == TotalKeys[i][..3][0] && TotalKeys[i][2] == TotalKeys[i][..3][2];
    assert TotalKeys[j][0] == TotalKeys[j][..3][0] && TotalKeys[j][2] == TotalKeys[j][..3][2];
  }

  /** The lines the branch for `current_data` builds from scratch, server/index.js:174-195. */
  function ModifyLines(foodName: Option<Json>, currentData: Json, instructions: Option<Json>, operationType: Option<Json>): Option<seq<string>> {
    match IngredientSection(currentData)
    case None => None
    case Some(section) =>
      Some([FixOpening, "", "Food: " + Show(OrElse(foodName, Str("Unknown")))] + TruthyTotals(currentData) + section
           + ["", "Instruction: " + Show(OrElse(instructions, Str(DefaultInstruction)))] + OperationLines(operationType) + ["", RespondLine])
  }

  /** The rebuilt prompt opens with the name, else 'Unknown', and its instruction has no query fallback. */
  lemma {:induction false} ModifyLinesShape(foodName: Option<Json>, currentData: Json, instructions: Option<Json>, operationType: Option<Json>)
    ensures ModifyLines(foodName, currentData, instructions, operationType).None? <==> IngredientSection(currentData).None?
    ensures ModifyLines(foodName, currentData, instructions, operationType).Some? ==>
      var lines := ModifyLines(foodName, currentData, instructions, operationType).value;
      |lines| >= 7 && lines[..3] == [FixOpening, "", "Food: " + Show(OrElse(foodName, Str("Unknown")))]
      && lines[|lines| - 2..] == ["", RespondLine]
      && "Instruction: " + Show(OrElse(instructions, Str(DefaultInstruction))) in lines
  {
    if IngredientSection(currentData).Some? {
      ModifyLinesFrame([FixOpening, "", "Food: " + Show(OrElse(foodName, Str("Unknown")))], TruthyTotals(currentData),
        IngredientSection(currentData).value, "Instruction: " + Show(OrElse(instructions, Str(DefaultInstruction))), OperationLines(operationType));
    }
  }

  /** Where the opening, the instruction and the closing request sit in a rebuilt prompt. */
  lemma {:induction false} ModifyLinesFrame(opening: seq<string>, totals: seq<string>, section: seq<string>, instruction: string, operation: seq<string>)
    requires |opening| == 3
    ensures var lines := opening + totals + section + ["", instruction] + operation + ["", RespondLine];
      |lines| >= 7 && lines[..3] == opening && lines[|lines| - 2..] == ["", RespondLine] && instruction in lines
  {
    var lines := opening + totals + section + ["", instruction] + operation + ["", RespondLine];
    var front := opening + totals + section + [""];
    assert lines == front + ([instruction] + operation + ["", RespondLine]);
    assert lines[|front|] == instruction;
    assert lines[..3] == opening;
  }

  /** The first lines of the prompt: the opening, then the name and the serving size when truthy. */
  function BaseLines(foodName: Option<Json>, servingSize: Option<Json>): (r: seq<string>)
    ensures |r| == 1 + (if Present(foodName) then 1 else 0) + (if Present(servingSize) then 1 else 0)
    ensures r[0] == NutritionOpening
    ensures Present(foodName) ==> r[1] == "Food: " + Show(foodName.value)
    ensures Present(servingSize) ==> r[|r| - 1] == "Serving size: " + Show(servingSize.value)
  {
    [NutritionOpening]
    + (if Present(foodName) then ["Food: " + Show(foodName.value)] else [])
    + (if Present(servingSize) then ["Serving size: " + Show(servingSize.value)] else [])
  }

  /** The query block: the query line, an empty line and the request for the query schema. */
  function QueryLines(query: Json): seq<string> {
    ["Query: " + Show(query), "", ProvideLine]
  }

  /**
   * The prompt of `/api/nutrition`, server/index.js:164-234: rebuilt from
   * scratch when `current_data` is truthy, else the base lines with the query
   * and its schema when `query` is truthy, else the base lines alone.
   */
  function NutritionPrompt(foodName: Option<Json>, servingSize: Option<Json>, query: Option<Json>, currentData: Option<Json>,
                           operationType: Option<Json>, instructions: Option<Json>): Option<string>
  {
    if Present(currentData) then
      match ModifyLines(foodName, currentData.value, instructions, operationType)
      case None => None
      case Some(lines) => Some(Join(lines, '\n') + "\n" + FoodSchema)
    else if Present(query) then
      Some(Join(BaseLines(foodName, servingSize) + QueryLines(query.value), '\n') + "\n" + NutritionSchema)
    else
      Some(Join(BaseLines(foodName, servingSize), '\n'))
  }

  /** One `if (current_data.key) prompt += ...`. */
  method AppendTruthyTotal(text: string, ghost lines: seq<string>, currentData: Json, key: string) returns (r: string)
    requires text == Unlines(lines)
    ensures r == Unlines(lines + TruthyTotal(currentData, key))
  {
    var value := Member(currentData, key);
    if Present(value) {
      UnlinesSnoc(lines, TotalLine(key, value.value));
      r := text + TotalLine(key, value.value) + "\n";
    } else {
      assert lines + [] == lines;
      r := text;
    }
  }

  /** The four `if`s of server/index.js:178-181, appended to the prompt. */
  method AppendTruthyTotals(text: string, ghost lines: seq<string>, currentData: Json) returns (r: string)
    requires text == Unlines(lines)
    ensures r == Unlines(lines + TruthyTotals(currentData))
  {
    ghost var t1, t2, t3, t4 := TruthyTotal(currentData, "calories"), TruthyTotal(currentData, "protein"),
                                TruthyTotal(currentData, "fat"), TruthyTotal(currentData, "carbs");
    ghost var l1, l2, l3 := lines + t1, lines + t1 + t2, lines + t1 + t2 + t3;
    r := AppendTruthyTotal(text, lines, currentData, "calories");
    r := AppendTruthyTotal(r, l1, currentData, "protein");
    r := AppendTruthyTotal(r, l2, currentData, "fat");
    r := AppendTruthyTotal(r, l3, currentData, "carbs");
    Concat5(lines, t1, t2, t3, t4);
  }

  lemma {:induction false} Concat5(a: seq<string>, b: seq<string>, c: seq<string>, d: seq<string>, e: seq<string>)
    ensures a + b + c + d + e == a + (b + c + d + e)
  {
  }

  /** The `+=` builder of server/index.js:164-234, with the reset of line 174; `None` when it throws on a null ingredient. */
  method BuildNutritionPrompt(foodName: Option<Json>, servingSize: Option<Json>, query: Option<Json>, currentData: Option<Json>,
                              operationType: Option<Json>, instructions: Option<Json>) returns (r: Option<string>)
    ensures r == NutritionPrompt(foodName, servingSize, query, currentData, operationType, instructions)
  {
    var prompt := BuildBasePrompt(foodName, servingSize);
    if Present(currentData) {
      r := ModificationPrompt(foodName, currentData.value, instructions, operationType);
      return;
    } else if Present(query) {
      prompt := AppendQuery(prompt, BaseLines(foodName, servingSize), query.value);
    }
    return Some(prompt);
  }

  /** The opening, the name and the serving size of server/index.js:163-169. */
  method BuildBasePrompt(foodName: Option<Json>, servingSize: Option<Json>) returns (prompt: string)
    ensures prompt == Join(BaseLines(foodName, servingSize), '\n')
  {
    prompt := NutritionOpening;
    ghost var lines := [NutritionOpening];
    if Present(foodName) {
      var line := "Food: " + Show(foodName.value);
      JoinAppend(lines, [line], '\n');
      prompt, lines := prompt + "\n" + line, lines + [line];
    }
    if Present(servingSize) {
      var line := "Serving size: " + Show(servingSize.value);
      JoinAppend(lines, [line], '\n');
      prompt, lines := prompt + "\n" + line, lines + [line];
    }
    assert lines == BaseLines(foodName, servingSize);
  }

  /** The query block and its schema, server/index.js:223-232. */
  method AppendQuery(text: string, ghost base: seq<string>, query: Json) returns (prompt: string)
    requires |base| >= 1 && text == Join(base, '\n')
    ensures prompt == Join(base + QueryLines(query), '\n') + "\n" + NutritionSchema
  {
    var line := "Query: " + Show(query);
    prompt := text + "\n" + line;
    prompt := prompt + "\n\n" + ProvideLine;
    QueryJoin(base, query);
    prompt := prompt + "\n" + NutritionSchema;
  }

  /** The query block joined after the base lines. */
  lemma {:induction false} QueryJoin(base: seq<string>, query: Json)
    requires |base| >= 1
    ensures Join(base + QueryLines(query), '\n') == Join(base, '\n') + "\n" + ("Query: " + Show(query)) + "\n\n" + ProvideLine
  {
    JoinThreeAfter(base, "Query: " + Show(query), ProvideLine);
  }

  /** Three lines, the middle one blank, joined after `base`. */
  lemma {:induction false} JoinThreeAfter(base: seq<string>, line: string, last: string)
    requires |base| >= 1
    ensures Join(base + [line, "", last], '\n') == Join(base, '\n') + "\n" + line + "\n\n" + last
  {
    JoinAppend(base, [line, "", last], '\n');
    JoinThree(line, last);
    Append5(Join(base, '\n'), "\n", line, "\n\n", last);
  }

  lemma {:induction false} JoinThree(line: string, last: string)
    ensures Join([line, "", last], '\n') == line + "\n\n" + last
  {
    var q := [line, "", last];
    assert q[1..] == ["", last] && q[1..][1..] == [last];
    assert Join(["", last], '\n') == "" + "\n" + last;
    assert Join(q, '\n') == line + "\n" + ("" + "\n" + last);
    assert "" + "\n" + last == "\n" + last;
    assert line + "\n" + ("\n" + last) == line + ("\n" + "\n") + last;
  }

  lemma {:induction false} Append5(a: string, b: string, c: string, d: string, e: string)
    ensures a + b + (c + d + e) == a + b + c + d + e
  {
  }

  /** server/index.js:174-221, the prompt rebuilt for `current_data`. */
  method ModificationPrompt(foodName: Option<Json>, currentData: Json, instructions: Option<Json>, operationType: Option<Json>)
    returns (r: Option<string>)
    ensures r.None? <==> ModifyLines(foodName, currentData, instructions, operationType).None?
    ensures r.Some? ==> r.value == Join(ModifyLines(foodName, currentData, instructions, operationType).value, '\n') + "\n" + FoodSchema
  {
    var prompt := FixOpening + "\n\n";
    ghost var lines := [FixOpening, ""];
    OpeningLines();
    var line := "Food: " + Show(OrElse(foodName, Str("Unknown")));
    UnlinesSnoc(lines, line);
    prompt, lines := prompt + line + "\n", lines + [line];
    assert lines == [FixOpening, "", line];
    prompt := AppendTruthyTotals(prompt, lines, currentData);
    lines := lines + TruthyTotals(currentData);
    var withSection := AppendIngredientSection(prompt, currentData);
    if withSection.None? {
      return None;
    }
    UnlinesAppend(lines, IngredientSection(currentData).value);
    prompt, lines := withSection.value, lines + IngredientSection(currentData).value;
    prompt, lines := AppendInstruction(prompt, lines, Show(OrElse(instructions, Str(DefaultInstruction))), operationType);
    assert ModifyLines(foodName, currentData, instructions, operationType) == Some(lines + ["", RespondLine]);
    prompt := AppendSchema(prompt, lines);
    return Some(prompt);
  }

  /** With `current_data` the prompt is rebuilt from scratch: `serving_size` and `query` no longer matter. */
  lemma {:induction false} ModificationIgnoresBase(foodName: Option<Json>, servingSize: Option<Json>, servingSize': Option<Json>,
                                query: Option<Json>, query': Option<Json>, currentData: Option<Json>,
                                operationType: Option<Json>, instructions: Option<Json>)
    requires Present(currentData)
    ensures NutritionPrompt(foodName, servingSize, query, currentData, operationType, instructions)
         == NutritionPrompt(foodName, servingSize', query', currentData, operationType, instructions)
  {
  }

  /** ... and it opens as the fix-food prompt does, with the name, not with the nutrition opening. */
  lemma {:induction false} ModificationOpening(foodName: Option<Json>, servingSize: Option<Json>, query: Option<Json>, currentData: Option<Json>,
                            operationType: Option<Json>, instructions: Option<Json>)
    requires Present(currentData)
    requires NutritionPrompt(foodName, servingSize, query, currentData, operationType, instructions).Some?
    ensures StartsWith(NutritionPrompt(foodName, servingSize, query, currentData, operationType, instructions).value,
                       Unlines([FixOpening, "", "Food: " + Show(OrElse(foodName, Str("Unknown")))]))
  {
    ModifyLinesShape(foodName, currentData.value, instructions, operationType);
    var lines := ModifyLines(foodName, currentData.value, instructions, operationType).value;
    assert lines == lines[..3] + lines[3..];
    JoinedOpensWith(lines[..3], lines[3..], FoodSchema);
  }

  /** Lines joined, then a schema, start with the first lines each ended by a newline. */
  lemma {:induction false} JoinedOpensWith(front: seq<string>, rest: seq<string>, schema: string)
    requires |rest| >= 1
    ensures StartsWith(Join(front + rest, '\n') + "\n" + schema, Unlines(front))
  {
    JoinAfterUnlines(front, rest);
    var u, j := Unlines(front), Join(rest, '\n');
    assert u + j + "\n" + schema == u + (j + "\n" + schema);
    assert (u + (j + "\n" + schema))[..|u|] == u;
  }

  /** Without `current_data` and with a query, the prompt is the base lines, the query and the query schema. */
  lemma {:induction false} QueryBranch(foodName: Option<Json>, servingSize: Option<Json>, query: Option<Json>, currentData: Option<Json>,
                    operationType: Option<Json>, instructions: Option<Json>)
    requires !Present(currentData) && Present(query)
    requires forall i :: 0 <= i < |BaseLines(foodName, servingSize)| ==> '\n' !in BaseLines(foodName, servingSize)[i]
    requires '\n' !in Show(query.value)
    ensures Split(NutritionPrompt(foodName, servingSize, query, currentData, operationType, instructions).value, '\n')
         == BaseLines(foodName, servingSize) + QueryLines(query.value) + Split(NutritionSchema, '\n')
  {
    var base := BaseLines(foodName, servingSize);
    var lines := base + QueryLines(query.value);
    assert '\n' !in "Query: " + Show(query.value) by {
      var q := "Query: " + Show(query.value);
      forall i | 0 <= i < |q| ensures q[i] != '\n' {
        if i >= 7 {
          assert q[i] == Show(query.value)[i - 7];
        }
      }
    }
    forall i | 0 <= i < |lines|
      ensures '\n' !in lines[i]
    {
      if i < |base| {
        assert lines[i] == base[i];
      } else {
        var k := i - |base|;
        assert lines[i] == QueryLines(query.value)[k];
        if k == 2 {
          ProvideLineHasNoNewline();
        }
      }
    }
    SchemaFollows(lines, NutritionSchema);
  }

  lemma {:induction false} ProvideLineHasNoNewline()
    ensures '\n' !in ProvideLine
  {
    assert '\n' !in "Please provide a valid JSON ";
    assert '\n' !in "response with the following structure:";
  }

  // ---------------------------------------------------------------- the reply

  /** The JSON the handlers answer. */
  datatype ProxyReply =
    | Answer(data: Json)                               // `{success: true, data}`
    | ParseFailed(error: string, rawContent: string)   // 500 with the reply text
    | ProcessingFailed(error: string)                  // 500 from the outer `catch`

  /** The outer `catch`: "Error processing request: " and the message. */
  function ProcessingError(message: string): ProxyReply {
    ProcessingFailed("Error processing request: " + message)
  }

  /** The ladder of server/index.js:108-141 (and 268-301) on the reply text. */
  function ReplyFromText(parse: Parser, text: string): (r: ProxyReply)
    ensures parse(text).Parsed? ==> r == Answer(parse(text).value)
    ensures parse(text).SyntaxError? && BraceStep(parse, text, parse(text).message).Extracted?
        ==> r == Answer(parse(GreedyBrace(text).value).value)
    // a failure keeps the raw text and cites the first parse's error, whichever step failed
    ensures r.ParseFailed? <==> (parse(text).SyntaxError? && !BraceStep(parse, text, parse(text).message).Extracted?)
    ensures r.ParseFailed? ==> r.rawContent == text && r.error == ParseErrorPrefix + parse(text).message
    ensures !r.ProcessingFailed?
  {
    match ParseOrGreedyBrace(parse, text)
    case Direct(v) => Answer(v)
    case Extracted(v) => Answer(v)
    case Unparsable(e) => ParseFailed(ParseErrorPrefix + e, text)
    case NoObject(e) => ParseFailed(ParseErrorPrefix + e, text)
  }

  /**
   * What both handlers do with their prompt: `ask` gives the service's answer
   * to it; the content must be a string, since the log line calls `substring`.
   */
  function Relay(prompt: Option<string>, ask: string -> AxiosResult, parse: Parser): (r: ProxyReply)
    ensures prompt.None? ==> r == ProcessingError(NullIngredient)
    ensures prompt.Some? && ask(prompt.value).AxiosError? ==> r == ProcessingError(ask(prompt.value).message)
    ensures prompt.Some? && ask(prompt.value).AxiosOk? ==>
      var content := AnswerContent(ask(prompt.value).data);
      (content.TypeError? ==> r == ProcessingError(content.message))
      && (content.Value? && content.v.Some? && content.v.value.Str? ==> r == ReplyFromText(parse, content.v.value.s))
      && (content.Value? && StringMethodError(content.v, "resultContent", "substring").Some? ==>
            r == ProcessingError(StringMethodError(content.v, "resultContent", "substring").value))
    ensures r.ParseFailed? ==> (parse(r.rawContent).SyntaxError?
        && r.error == ParseErrorPrefix + parse(r.rawContent).message)
    ensures r.Answer? ==> exists t :: parse(t) == Parsed(r.data)
  {
    match prompt
    case None => ProcessingError(NullIngredient)
    case Some(text) =>
      match ask(text)
      case AxiosError(_, message) => ProcessingError(message)
      case AxiosOk(data) =>
        match AnswerContent(data)
        case TypeError(message) => ProcessingError(message)
        case Value(content) =>
          match StringMethodError(content, "resultContent", "substring")
          case Some(message) => ProcessingError(message)
          case None => ReplyFromText(parse, content.value.s)
  }

  /**
   * `/api/fix-food`, server/index.js:19-154: the prompt is asked, and a reply
   * refused by the ladder comes back with its raw text and the message of the
   * first parse's error.
   */
  function FixFood(body: map<string, Json>, ask: string -> AxiosResult, parse: Parser): (r: ProxyReply)
    ensures FixPrompt(Field(body, "food_data"), Field(body, "instructions"), Field(body, "query"), Field(body, "operation_type")).None?
        ==> r == ProcessingError(NullIngredient)
    // the service is asked about the built prompt
    ensures var prompt := FixPrompt(Field(body, "food_data"), Field(body, "instructions"), Field(body, "query"), Field(body, "operation_type"));
      prompt.Some? && ask(prompt.value).AxiosError? ==> r == ProcessingError(ask(prompt.value).message)
    ensures var prompt := FixPrompt(Field(body, "food_data"), Field(body, "instructions"), Field(body, "query"), Field(body, "operation_type"));
      var content := if prompt.Some? && ask(prompt.value).AxiosOk? then AnswerContent(ask(prompt.value).data) else Value(None);
      content.Value? && content.v.Some? && content.v.value.Str? ==> r == ReplyFromText(parse, content.v.value.s)
    // a malformed answer and a content that is not a string end in the outer catch
    ensures var prompt := FixPrompt(Field(body, "food_data"), Field(body, "instructions"), Field(body, "query"), Field(body, "operation_type"));
      prompt.Some? && ask(prompt.value).AxiosOk? ==>
        var content := AnswerContent(ask(prompt.value).data);
        (content.TypeError? ==> r == ProcessingError(content.message))
        && (content.Value? && StringMethodError(content.v, "resultContent", "substring").Some? ==>
              r == ProcessingError(StringMethodError(content.v, "resultContent", "substring").value))
  {
    Relay(FixPrompt(Field(body, "food_data"), Field(body, "instructions"), Field(body, "query"), Field(body, "operation_type")), ask, parse)
  }

  /** `/api/nutrition`, server/index.js:157-314, the same relay of its own prompt. */
  function Nutrition(body: map<string, Json>, ask: string -> AxiosResult, parse: Parser): (r: ProxyReply)
    ensures NutritionPrompt(Field(body, "food_name"), Field(body, "serving_size"), Field(body, "query"),
                            Field(body, "current_data"), Field(body, "operation_type"), Field(body, "instructions")).None?
        ==> r == ProcessingError(NullIngredient)
    ensures var prompt := NutritionPrompt(Field(body, "food_name"), Field(body, "serving_size"), Field(body, "query"),
                                          Field(body, "current_data"), Field(body, "operation_type"), Field(body, "instructions"));
      prompt.Some? && ask(prompt.value).AxiosError? ==> r == ProcessingError(ask(prompt.value).message)
    ensures var prompt := NutritionPrompt(Field(body, "food_name"), Field(body, "serving_size"), Field(body, "query"),
                                          Field(body, "current_data"), Field(body, "operation_type"), Field(body, "instructions"));
      var content := if prompt.Some? && ask(prompt.value).AxiosOk? then AnswerContent(ask(prompt.value).data) else Value(None);
      content.Value? && content.v.Some? && content.v.value.Str? ==> r == ReplyFromText(parse, content.v.value.s)
    // a malformed answer and a content that is not a string end in the outer catch
    ensures var prompt := NutritionPrompt(Field(body, "food_name"), Field(body, "serving_size"), Field(body, "query"),
                                          Field(body, "current_data"), Field(body, "operation_type"), Field(body, "instructions"));
      prompt.Some? && ask(prompt.value).AxiosOk? ==>
        var content := AnswerContent(ask(prompt.value).data);
        (content.TypeError? ==> r == ProcessingError(content.message))
        && (content.Value? && StringMethodError(content.v, "resultContent", "substring").Some? ==>
              r == ProcessingError(StringMethodError(content.v, "resultContent", "substring").value))
  {
    Relay(NutritionPrompt(Field(body, "food_name"), Field(body, "serving_size"), Field(body, "query"),
                          Field(body, "current_data"), Field(body, "operation_type"), Field(body, "instructions")), ask, parse)
  }
}
