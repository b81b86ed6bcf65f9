/**
 * index.js, the DeepSeek proxy: `/api/analyze`, `/api/nutrition` and
 * `/api/fix-food`.  Each checks its required fields, asks the service through
 * axios, reads `response.data.choices[0].message.content` with no guard and
 * runs the parse-or-greedy-brace ladder on it.  `/api/fix-food` first builds a
 * description of the current food and, on the direct-parse path only,
 * normalises the capitalised keys of the reply.
 */
module DeepseekService {
  import opened Wrappers
  import opened JsValues
  import opened JsText
  import opened Upstream
  import opened Patterns
  import opened GreedyLadder
  import opened KeyCase
  import opened Prompts

  /** The JSON a handler answers: `{success: true, data, request_id?, operation_type?, extracted?}` or an error with its status. */
  datatype ServiceReply =
    | Success(data: Json, requestId: Option<Json>, operationType: Option<Json>, extracted: bool)
    | Failure(status: int, message: string)

  const MissingPrompt := "Missing required prompt parameter"
  const MissingNutritionFields := "Missing required parameters: food_name and serving_size are required"
  const MissingFixFields := "Missing required parameters"
  const Unparsed := "Could not parse response as JSON"
  const NoJson := "Could not extract JSON from response"
  const UpdateRequest := "Please analyze and update the food according to the following instruction: '"
  const OperationTypeLabel := "' (Operation type: "

  /** `error.response?.status || 500`. */
  function ErrorStatus(status: Option<int>): (r: int)
    ensures status.Some? && status.value != 0 ==> r == status.value
    ensures status.None? || status.value == 0 ==> r == 500
  {
    if status.Some? && status.value != 0 then status.value else 500
  }

  /** The reply text read from an axios answer, or the error answer the outer `catch` gives. */
  datatype Answer = Text(data: Json, text: string) | Refused(reply: ServiceReply)

  /** `response.data.choices[0].message.content`, as the string `JSON.parse` and `exec` see. */
  function ReadAnswer(upstream: AxiosResult): (r: Answer)
    ensures upstream.AxiosError? ==> r == Refused(Failure(ErrorStatus(upstream.status), upstream.message))
    ensures upstream.AxiosOk? && AnswerContent(upstream.data).TypeError?
        ==> r == Refused(Failure(500, AnswerContent(upstream.data).message))
    ensures upstream.AxiosOk? && AnswerContent(upstream.data).Value?
        ==> r == Text(upstream.data, ToText(AnswerContent(upstream.data).v))
  {
    match upstream
    case AxiosError(status, message) => Refused(Failure(ErrorStatus(status), message))
    case AxiosOk(data) =>
      match AnswerContent(data)
      case TypeError(message) => Refused(Failure(500, message))
      case Value(content) => Text(data, ToText(content))
  }

  /** `/api/analyze`, index.js:19-109. */
  function Analyze(body: map<string, Json>, upstream: AxiosResult, parse: Parser): (r: ServiceReply)
    ensures !Present(Field(body, "prompt")) ==> r == Failure(400, MissingPrompt)
    ensures Present(Field(body, "prompt")) && upstream.AxiosError?
        ==> r == Failure(ErrorStatus(upstream.status), upstream.message)
    // the reply is a success exactly when the ladder produced a value
    ensures r.Success? <==> (Present(Field(body, "prompt")) && ReadAnswer(upstream).Text?
        && (ParseOrGreedyBrace(parse, ReadAnswer(upstream).text).Direct? || ParseOrGreedyBrace(parse, ReadAnswer(upstream).text).Extracted?))
    // a direct parse is answered with the request id and `operation_type || 'general'`
    ensures Present(Field(body, "prompt")) && ReadAnswer(upstream).Text? && parse(ReadAnswer(upstream).text).Parsed?
        ==> r == Success(parse(ReadAnswer(upstream).text).value, Member(ReadAnswer(upstream).data, "id"),
                         Some(OrElse(Field(body, "operation_type"), Str("general"))), false)
    // a malformed answer is refused with its TypeError
    ensures Present(Field(body, "prompt")) && ReadAnswer(upstream).Refused? ==> r == ReadAnswer(upstream).reply
    // an extracted value is flagged and carries neither; each failure of the ladder has its own message
    ensures Present(Field(body, "prompt")) && ReadAnswer(upstream).Text?
        ==> var e := ParseOrGreedyBrace(parse, ReadAnswer(upstream).text);
            (e.Extracted? ==> r == Success(e.value, None, None, true))
            && (e.Unparsable? ==> r == Failure(500, Unparsed))
            && (e.NoObject? ==> r == Failure(500, NoJson))
  {
    if !Present(Field(body, "prompt")) then Failure(400, MissingPrompt)
    else
      match ReadAnswer(upstream)
      case Refused(reply) => reply
      case Text(data, text) =>
        match ParseOrGreedyBrace(parse, text)
        case Direct(v) => Success(v, Member(data, "id"), Some(OrElse(Field(body, "operation_type"), Str("general"))), false)
        case Extracted(v) => Success(v, None, None, true)
        case Unparsable(_) => Failure(500, Unparsed)
        case NoObject(_) => Failure(500, NoJson)
  }

  /** `/api/nutrition`, index.js:112-197: both successful steps answer with the request id. */
  function Nutrition(body: map<string, Json>, upstream: AxiosResult, parse: Parser): (r: ServiceReply)
    ensures !Present(Field(body, "food_name")) || !Present(Field(body, "serving_size"))
        ==> r == Failure(400, MissingNutritionFields)
    ensures Present(Field(body, "food_name")) && Present(Field(body, "serving_size")) && upstream.AxiosError?
        ==> r == Failure(ErrorStatus(upstream.status), upstream.message)
    ensures r.Success? ==> upstream.AxiosOk? && r.requestId == Member(upstream.data, "id") && r.operationType.None? && !r.extracted
    // a malformed answer is refused with its TypeError
    ensures Present(Field(body, "food_name")) && Present(Field(body, "serving_size")) && ReadAnswer(upstream).Refused?
        ==> r == ReadAnswer(upstream).reply
    ensures Present(Field(body, "food_name")) && Present(Field(body, "serving_size")) && ReadAnswer(upstream).Text?
        ==> var e := ParseOrGreedyBrace(parse, ReadAnswer(upstream).text);
            (e.Direct? || e.Extracted? ==> r.Success? && r.data == e.value)
            && (e.Unparsable? ==> r == Failure(500, Unparsed))
            && (e.NoObject? ==> r == Failure(500, NoJson))
  {
    if !Present(Field(body, "food_name")) || !Present(Field(body, "serving_size")) then Failure(400, MissingNutritionFields)
    else
      match ReadAnswer(upstream)
      case Refused(reply) => reply
      case Text(data, text) =>
        match ParseOrGreedyBrace(parse, text)
        case Direct(v) => Success(v, Member(data, "id"), None, false)
        case Extracted(v) => Success(v, Member(data, "id"), None, false)
        case Unparsable(_) => Failure(500, Unparsed)
        case NoObject(_) => Failure(500, NoJson)
  }

  /** The line `\nPlease analyze ...` ends the description with. */
  function InstructionLine(instructions: Json, operationType: Option<Json>): string {
    UpdateRequest + Show(instructions) + OperationTypeLabel + Show(OrElse(operationType, Str("UNKNOWN"))) + ")"
  }

  /** The six lines every description starts with: the name, the four totals and "Ingredients:". */
  function HeadLines(foodName: Json, currentData: Json): seq<string> {
    ["Food: " + Show(foodName),
     "Total calories: " + ToText(Member(currentData, "calories")),
     "Total protein: " + ToText(Member(currentData, "protein")),
     "Total fat: " + ToText(Member(currentData, "fat")),
     "Total carbs: " + ToText(Member(currentData, "carbs")),
     "Ingredients:"]
  }

  /**
   * The lines of the fix-food description, index.js:215-229, joined by "\n":
   * the name, the four totals, "Ingredients:", one line per ingredient when
   * `current_data.ingredients` is an array, an empty line and the instruction.
   * `None` when an ingredient is null.
   */
  function DescriptionLines(foodName: Json, currentData: Json, instructions: Json, operationType: Option<Json>): (r: Option<seq<string>>)
    ensures r.None? <==> (IngredientArray(currentData).Some?
        && exists i :: 0 <= i < |IngredientArray(currentData).value| && IngredientArray(currentData).value[i].Null?)
  {
    match IngredientBlock(currentData)
    case None => None
    case Some(ingredients) => Some(HeadLines(foodName, currentData) + ingredients + ["", InstructionLine(instructions, operationType)])
  }

  /** One line per ingredient, in order, after the six opening lines; none when `ingredients` is not an array. */
  lemma {:induction false} DescriptionIngredients(foodName: Json, currentData: Json, instructions: Json, operationType: Option<Json>)
    requires DescriptionLines(foodName, currentData, instructions, operationType).Some?
    ensures var r := DescriptionLines(foodName, currentData, instructions, operationType).value;
      IngredientArray(currentData).None? ==> |r| == 8
    ensures var r := DescriptionLines(foodName, currentData, instructions, operationType).value;
      IngredientArray(currentData).Some? ==>
        var items := IngredientArray(currentData).value;
        |r| == 8 + |items| && forall i :: 0 <= i < |items| ==> r[6 + i] == IngredientLine(items[i])
  {
    var head, block, last := HeadLines(foodName, currentData), IngredientBlock(currentData).value, InstructionLine(instructions, operationType);
    DescriptionShape(head, block, last);
  }

  /** The description opens with the name and the calories, heads the ingredients, and closes with an empty line and the instruction. */
  lemma {:induction false} DescriptionFrame(foodName: Json, currentData: Json, instructions: Json, operationType: Option<Json>)
    requires DescriptionLines(foodName, currentData, instructions, operationType).Some?
    ensures var r := DescriptionLines(foodName, currentData, instructions, operationType).value;
      r[0] == "Food: " + Show(foodName)
      && r[1] == "Total calories: " + ToText(Member(currentData, "calories"))
      && r[5] == "Ingredients:"
      && r[|r| - 2] == ""
      && r[|r| - 1] == InstructionLine(instructions, operationType)
  {
    var head, block, last := HeadLines(foodName, currentData), IngredientBlock(currentData).value, InstructionLine(instructions, operationType);
    DescriptionShape(head, block, last);
  }

  /** Where the parts of a description sit among its lines. */
  lemma {:induction false} DescriptionShape(head: seq<string>, block: seq<string>, last: string)
    requires |head| == 6
    ensures var r := head + block + ["", last];
      |r| == 8 + |block| && (forall i :: 0 <= i < |block| ==> r[6 + i] == block[i])
      && r[0] == head[0] && r[1] == head[1] && r[5] == head[5] && r[|r| - 2] == "" && r[|r| - 1] == last
  {
    var r := head + block + ["", last];
    forall i | 0 <= i < |block|
      ensures r[6 + i] == block[i]
    {
      assert r[6 + i] == (head + block)[6 + i];
    }
  }

  /** The first six `+=` of index.js:215-220. */
  method DescribeTotals(foodName: Json, currentData: Json) returns (description: string)
    ensures description == Unlines(HeadLines(foodName, currentData))
  {
    var line := "Food: " + Show(foodName);
    description := line + "\n";
    ghost var lines := [line];
    UnlinesOne(line);
    line := "Total calories: " + ToText(Member(currentData, "calories"));
    UnlinesSnoc(lines, line);
    description, lines := description + line + "\n", lines + [line];
    line := "Total protein: " + ToText(Member(currentData, "protein"));
    UnlinesSnoc(lines, line);
    description, lines := description + line + "\n", lines + [line];
    line := "Total fat: " + ToText(Member(currentData, "fat"));
    UnlinesSnoc(lines, line);
    description, lines := description + line + "\n", lines + [line];
    line := "Total carbs: " + ToText(Member(currentData, "carbs"));
    UnlinesSnoc(lines, line);
    description, lines := description + line + "\n", lines + [line];
    UnlinesSnoc(lines, "Ingredients:");
    description, lines := description + "Ingredients:\n", lines + ["Ingredients:"];
    assert lines == HeadLines(foodName, currentData);
  }

  /** The `+=` builder of index.js:215-229; `None` when it throws on a null ingredient. */
  method DescribeCurrentFood(foodName: Json, currentData: Json, instructions: Json, operationType: Option<Json>) returns (r: Option<string>)
    ensures r.None? <==> DescriptionLines(foodName, currentData, instructions, operationType).None?
    ensures r.Some? ==> r.value == Join(DescriptionLines(foodName, currentData, instructions, operationType).value, '\n')
  {
    var description := DescribeTotals(foodName, currentData);
    var withBlock := AppendIngredientBlock(description, currentData);
    if withBlock.None? {
      return None;
    }
    ghost var lines := HeadLines(foodName, currentData) + IngredientBlock(currentData).value;
    UnlinesAppend(HeadLines(foodName, currentData), IngredientBlock(currentData).value);
    description := withBlock.value + "\n" + InstructionLine(instructions, operationType);
    JoinBlankThen(lines, InstructionLine(instructions, operationType));
    return Some(description);
  }

  /**
   * When no field holds a newline, splitting the description on "\n" gives
   * back its lines: the ingredients are the lines after "Ingredients:".
   */
  lemma {:induction false} DescriptionSplits(foodName: Json, currentData: Json, instructions: Json, operationType: Option<Json>)
    requires DescriptionLines(foodName, currentData, instructions, operationType).Some?
    requires var lines := DescriptionLines(foodName, currentData, instructions, operationType).value;
      forall i :: 0 <= i < |lines| ==> '\n' !in lines[i]
    ensures var lines := DescriptionLines(foodName, currentData, instructions, operationType).value;
      Split(Join(lines, '\n'), '\n') == lines
  {
    SplitJoin(DescriptionLines(foodName, currentData, instructions, operationType).value, '\n');
  }

  /** The parsed reply with its capitalised keys moved; a value that is not an object has none of them. */
  function Normalised(v: Json): (r: Json)
    ensures v.Obj? ==> r == Obj(NormalisedKeyCase(v.fields))
    ensures !v.Obj? ==> r == v
  {
    if v.Obj? then Obj(NormalisedKeyCase(v.fields)) else v
  }

  /**
   * The fix-food ladder, index.js:266-316.  A direct parse to `null` throws at
   * `modifiedFood.Ingredients`, which sends the ladder to the brace step too.
   */
  function FixLadder(parse: Parser, text: string): (r: Extraction)
    ensures parse(text).Parsed? && !parse(text).value.Null? ==> r == Direct(Normalised(parse(text).value))
    ensures parse(text).Parsed? && parse(text).value.Null?
        ==> r == BraceStep(parse, text, ReadOfNothing(Some(Null), "Ingredients"))
    ensures parse(text).SyntaxError? ==> r == BraceStep(parse, text, parse(text).message)
    // only the direct-parse path is normalised: an extracted object keeps its casing
    ensures r.Extracted? ==> r.value == parse(GreedyBrace(text).value).value
  {
    match parse(text)
    case Parsed(v) =>
      if v.Null? then BraceStep(parse, text, ReadOfNothing(Some(Null), "Ingredients"))
      else Direct(Normalised(v))
    case SyntaxError(e) => BraceStep(parse, text, e)
  }

  /**
   * The description the service is sent (inside the user message whose other
   * text is fixed): `None` when a required field is missing or an ingredient is
   * null, since then nothing is sent.
   */
  function FixDescription(body: map<string, Json>): (r: Option<string>)
    ensures r.Some? <==> (Present(Field(body, "food_name")) && Present(Field(body, "instructions"))
      && Present(Field(body, "current_data"))
      && DescriptionLines(Field(body, "food_name").value, Field(body, "current_data").value,
                          Field(body, "instructions").value, Field(body, "operation_type")).Some?)
  {
    var foodName := Field(body, "food_name");
    var instructions := Field(body, "instructions");
    var currentData := Field(body, "current_data");
    if !Present(foodName) || !Present(instructions) || !Present(currentData) then None
    else
      match DescriptionLines(foodName.value, currentData.value, instructions.value, Field(body, "operation_type"))
      case None => None
      case Some(lines) => Some(Join(lines, '\n'))
  }

  /** `/api/fix-food`, index.js:200-335; `ask` is the DeepSeek call, given the description. */
  function FixFood(body: map<string, Json>, ask: string -> AxiosResult, parse: Parser): (r: ServiceReply)
    ensures !Present(Field(body, "food_name")) || !Present(Field(body, "instructions")) || !Present(Field(body, "current_data"))
        ==> r == Failure(400, MissingFixFields)
    // a null ingredient throws while the description is built, before the service is asked
    ensures Present(Field(body, "food_name")) && Present(Field(body, "instructions")) && Present(Field(body, "current_data"))
            && FixDescription(body).None?
        ==> r == Failure(500, NullIngredient)
    // the service is asked about the description; its refusal is answered as it came
    ensures FixDescription(body).Some? && ReadAnswer(ask(FixDescription(body).value)).Refused?
        ==> r == ReadAnswer(ask(FixDescription(body).value)).reply
    // both successful steps answer with the request id and `operation_type || 'general'`
    ensures r.Success? ==> FixDescription(body).Some?
    ensures r.Success? ==> (
      var answer := ReadAnswer(ask(FixDescription(body).value));
      && answer.Text? && r.requestId == Member(answer.data, "id") && !r.extracted
      && r.operationType == Some(OrElse(Field(body, "operation_type"), Str("general")))
      && (FixLadder(parse, answer.text).Direct? || FixLadder(parse, answer.text).Extracted?)
      && r.data == FixLadder(parse, answer.text).value)
    ensures FixDescription(body).Some? && ReadAnswer(ask(FixDescription(body).value)).Text? ==> (
      var answer := ReadAnswer(ask(FixDescription(body).value));
      var text := answer.text;
      && (FixLadder(parse, text).Direct? || FixLadder(parse, text).Extracted?
          ==> r == Success(FixLadder(parse, text).value, Member(answer.data, "id"),
                           Some(OrElse(Field(body, "operation_type"), Str("general"))), false))
      && (FixLadder(parse, text).Unparsable? ==> r == Failure(500, Unparsed))
      && (FixLadder(parse, text).NoObject? ==> r == Failure(500, NoJson)))
  {
    var foodName := Field(body, "food_name");
    var instructions := Field(body, "instructions");
    var currentData := Field(body, "current_data");
    if !Present(foodName) || !Present(instructions) || !Present(currentData) then Failure(400, MissingFixFields)
    else
      match FixDescription(body)
      case None => Failure(500, NullIngredient)
      case Some(description) =>
        match ReadAnswer(ask(description))
        case Refused(reply) => reply
        case Text(data, text) =>
          match FixLadder(parse, text)
          case Direct(v) => Success(v, Member(data, "id"), Some(OrElse(Field(body, "operation_type"), Str("general"))), false)
          case Extracted(v) => Success(v, Member(data, "id"), Some(OrElse(Field(body, "operation_type"), Str("general"))), false)
          case Unparsable(_) => Failure(500, Unparsed)
          case NoObject(_) => Failure(500, NoJson)
  }

  /**
   * A reply object whose capitalised `Name` is truthy and that has no `name`:
   * parsed whole, the value comes back under `name`; wrapped in prose that
   * does not parse, the brace span comes back with `Name` as it was.
   */
  lemma {:induction false} CasingDependsOnPath(parse: Parser, text: string, fields: Fields)
    requires Present(Get(fields, "Name")) && !Present(Get(fields, "name"))
    ensures parse(text) == Parsed(Obj(fields)) ==>
        var r := FixLadder(parse, text);
        r.Direct? && Get(r.value.fields, "name") == Get(fields, "Name") && Get(r.value.fields, "Name").None?
    ensures parse(text).SyntaxError? && GreedyBrace(text).Some? && parse(GreedyBrace(text).value) == Parsed(Obj(fields)) ==>
        FixLadder(parse, text) == Extracted(Obj(fields))
  {
    NormalisedPair(fields, 1);
  }
}
