/**
 * The two output helpers every command uses. Output is a sequence of
 * console lines; a line is the list of values passed to one `console.log`
 * call. `JSON.stringify` is kept abstract: `Json(v)` stands for the
 * serialisation of `v`, `Text(v)` for `v` as `console.log` shows it.
 */
module PrettyPrint {
  import opened JsValues

  datatype Item = Text(v: JsValue) | Json(v: JsValue)

  datatype Line = Line(items: seq<Item>)

  /**
   * `print(msg, obj)`: an object message (arrays and `null` included) is
   * serialised alone and `obj` is ignored; any other message is logged as
   * it is, followed by a second line with the serialised `obj` when `obj`
   * is truthy.
   */
  function Print(msg: JsValue, obj: JsValue): (out: seq<Line>)
    ensures 1 <= |out| <= 2
    ensures |out| == 2 <==> !IsTypeofObject(msg) && Truthy(obj)
    ensures forall i :: 0 <= i < |out| ==> |out[i].items| == 1
    ensures IsTypeofObject(msg) ==> out[0].items[0] == Json(msg)
    ensures !IsTypeofObject(msg) ==> out[0].items[0] == Text(msg)
    ensures |out| == 2 ==> out[1].items[0] == Json(obj)
  {
    if IsTypeofObject(msg) then [Line([Json(msg)])]
    else if Truthy(obj) then [Line([Text(msg)]), Line([Json(obj)])]
    else [Line([Text(msg)])]
  }

  /**
   * `printError(error, obj)`: one line of two items. The first is
   * `error.response.data` when the error carries a truthy `response`,
   * otherwise the error itself; the second is `obj`, or `''` when `obj`
   * is falsy. Reading `error.response` on `null`/`undefined` throws, so the
   * error must be neither.
   */
  function PrintError(error: JsValue, obj: JsValue): (out: seq<Line>)
    requires !IsNullish(error)
    ensures |out| == 1 && |out[0].items| == 2
    ensures Truthy(Prop(error, "response")) ==> out[0].items[0] == Text(Prop(Prop(error, "response"), "data"))
    ensures !Truthy(Prop(error, "response")) ==> out[0].items[0] == Text(error)
    ensures out[0].items[1] == Text(if Truthy(obj) then obj else Str(""))
  {
    var response := Prop(error, "response");
    var trailer := if Truthy(obj) then obj else Str("");
    if Truthy(response) then [Line([Text(Prop(response, "data")), Text(trailer)])]
    else [Line([Text(error), Text(trailer)])]
  }

  /** An object message is printed the same whatever the second argument is. */
  lemma PrintIgnoresObjForObjects(msg: JsValue, obj: JsValue)
    requires IsTypeofObject(msg)
    ensures Print(msg, obj) == Print(msg, Undefined) == [Line([Json(msg)])]
  {
  }

  /**
   * An SDK error that carries a response is reported by its payload,
   * whatever that payload is (`''`, `0` and `undefined` included): the
   * response object is truthy, so the wrapper error never appears in the
   * line unless it is its own payload.
   */
  lemma PrintErrorShowsPayload(data: JsValue, rest: map<string, JsValue>, obj: JsValue)
    ensures var error := Obj(rest["response" := Obj(map["data" := data])]);
      PrintError(error, obj)[0].items[0] == Text(data)
  {
  }

  /** A plain message string is logged verbatim with an empty trailer. */
  lemma PrintErrorOfMessage(message: string)
    ensures PrintError(Str(message), Undefined) == [Line([Text(Str(message)), Text(Str(""))])]
  {
  }
}
