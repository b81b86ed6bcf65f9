/**
 * What the handlers get back from the chat-completion services, and the
 * JavaScript property reads they make on it.  The network calls themselves are
 * not modelled: each handler takes their outcome as a parameter.
 */
module Upstream {
  import opened Wrappers
  import opened JsValues

  /** `await fetch(...)` then `await response.json()`. */
  datatype FetchResult =
    | Rejected(message: string)   // the call or the body decoding threw
    | NotOk(status: int)          // `response.ok` was false
    | Body(data: Json)            // the decoded body

  /** `await axios.post(...)`: a thrown error (with the status of the response, if any) or the decoded body. */
  datatype AxiosResult =
    | AxiosError(status: Option<int>, message: string)
    | AxiosOk(data: Json)

  /** The outcome of a JavaScript expression that may throw a TypeError. */
  datatype Read = Value(v: Option<Json>) | TypeError(message: string)

  /** The message of the TypeError thrown by reading a property of `undefined` (`None`) or `null`. */
  function ReadOfNothing(v: Option<Json>, key: string): string {
    var what := if v.None? then "undefined" else "null";
    CannotRead + what + " (reading '" + key + "')"
  }

  const CannotRead := "Cannot read properties of "

  predicate Nullish(v: Option<Json>) {
    v.None? || v.value.Null?
  }

  /** `v.key`: a TypeError for `undefined` and `null`, else the member, `undefined` if there is none. */
  function Prop(v: Option<Json>, key: string): (r: Read)
    ensures r.TypeError? <==> Nullish(v)
    ensures r.Value? ==> r.v == Member(v.value, key)
  {
    if Nullish(v) then TypeError(ReadOfNothing(v, key)) else Value(Member(v.value, key))
  }

  /** `v[0]`, with the same TypeErrors. */
  function Index0(v: Option<Json>): (r: Read)
    ensures r.TypeError? <==> Nullish(v)
    ensures r.Value? ==> r.v == First(v.value)
  {
    if Nullish(v) then TypeError(ReadOfNothing(v, "0")) else Value(First(v.value))
  }

  function Then(r: Read, f: Option<Json> -> Read): Read {
    if r.TypeError? then r else f(r.v)
  }

  /**
   * Calling a string method (`image.substring`, `content.match`, ...) on a
   * value: `None` when the value is a string, else the message of the TypeError.
   */
  function StringMethodError(v: Option<Json>, receiver: string, name: string): (r: Option<string>)
    ensures r.None? <==> v.Some? && v.value.Str?
  {
    if Nullish(v) then Some(ReadOfNothing(v, name))
    else if v.value.Str? then None
    else Some(NotAFunction(receiver, name))
  }

  /** The TypeError message for calling `receiver.name(...)` when that is no function. */
  function NotAFunction(receiver: string, name: string): string {
    receiver + "." + name + " is not a function"
  }

  /**
   * `data.choices[0].message`, read behind the guard
   * `!data.choices || !data.choices[0] || !data.choices[0].message`:
   * `None` when one of the three is falsy.  The guard reads nothing of a
   * falsy value, so only a `null` body makes it throw.
   */
  function ChoiceMessage(data: Json): (r: Option<Json>)
    requires !data.Null?
    ensures r.Some? ==> Truthy(r.value)
    ensures r.Some? ==> Present(Member(data, "choices")) && Present(First(data.fields["choices"]))
    // the guard refuses exactly when one of the three reads is falsy
    ensures r.None? <==> !Present(Member(data, "choices")) || !Present(First(Member(data, "choices").value))
                         || !Present(Member(First(Member(data, "choices").value).value, "message"))
    // an OpenAI-shaped body passes with its message
    ensures data.Obj? && "choices" in data.fields && data.fields["choices"].Arr? && |data.fields["choices"].items| > 0
            && data.fields["choices"].items[0].Obj? && "message" in data.fields["choices"].items[0].fields
            && Truthy(data.fields["choices"].items[0].fields["message"])
        ==> r == Some(data.fields["choices"].items[0].fields["message"])
  {
    var choices := Member(data, "choices");
    if !Present(choices) then None
    else
      var first := First(choices.value);
      if !Present(first) then None
      else
        var message := Member(first.value, "message");
        if Present(message) then message else None
  }

  /** `data.choices[0].message.content` behind the same guard extended with `!data.choices[0].message.content`. */
  function ChoiceContent(data: Json): (r: Option<Json>)
    requires !data.Null?
    ensures r.Some? ==> Truthy(r.value) && ChoiceMessage(data).Some?
    ensures r.Some? ==> r == Member(ChoiceMessage(data).value, "content")
    // the guard refuses exactly when the message guard does or the content is falsy
    ensures r.None? <==> ChoiceMessage(data).None? || !Present(Member(ChoiceMessage(data).value, "content"))
    // an OpenAI-shaped body passes with its content
    ensures data.Obj? && "choices" in data.fields && data.fields["choices"].Arr? && |data.fields["choices"].items| > 0
            && data.fields["choices"].items[0].Obj? && "message" in data.fields["choices"].items[0].fields
            && data.fields["choices"].items[0].fields["message"].Obj?
            && "content" in data.fields["choices"].items[0].fields["message"].fields
            && Truthy(data.fields["choices"].items[0].fields["message"].fields["content"])
        ==> r == Some(data.fields["choices"].items[0].fields["message"].fields["content"])
  {
    match ChoiceMessage(data)
    case None => None
    case Some(m) =>
      var content := Member(m, "content");
      if Present(content) then content else None
  }

  /** `response.data.choices[0].message.content` read with no guard, as the axios handlers do. */
  function AnswerContent(data: Json): (r: Read)
    ensures data.Obj? && "choices" in data.fields && data.fields["choices"].Arr? && |data.fields["choices"].items| > 0
            && data.fields["choices"].items[0].Obj? && "message" in data.fields["choices"].items[0].fields
            && data.fields["choices"].items[0].fields["message"].Obj?
        ==> r == Value(Member(data.fields["choices"].items[0].fields["message"], "content"))
    ensures data.Null? ==> r == TypeError(ReadOfNothing(Some(Null), "choices"))
  {
    Then(Prop(Some(data), "choices"), c =>
      Then(Index0(c), f =>
        Then(Prop(f, "message"), m =>
          Prop(m, "content"))))
  }
}
