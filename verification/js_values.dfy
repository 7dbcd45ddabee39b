/** The two ways the client code turns a caught value into text: the template literal
    `${error}` (which is `String(error)`) and the guard
    `error instanceof Error ? error.message : String(error)`. */
module JsValues {

  /** A value caught by a `catch` clause: an `Error` instance (with its `name`,
      such as "Error" or "TypeError", and its `message`) or any other value,
      given by its `String(...)` rendering. */
  datatype Thrown =
    | ErrorObject(name: string, message: string)
    | NonError(text: string)

  /** `String(t)`. For an `Error` this is `Error.prototype.toString`: the name
      alone when the message is empty, the message alone when the name is empty,
      otherwise "name: message". */
  function ToText(t: Thrown): (r: string)
    ensures t.NonError? ==> r == t.text
    ensures t.ErrorObject? && t.name != "" && t.message != "" ==> r == t.name + ": " + t.message
    ensures t.ErrorObject? && t.name == "" ==> r == t.message
    ensures t.ErrorObject? && t.message == "" ==> r == t.name
  {
    match t
    case ErrorObject(name, message) =>
      if name == "" then message
      else if message == "" then name
      else name + ": " + message
    case NonError(text) => text
  }

  /** The message the `instanceof Error` guard extracts. */
  function MessageOf(t: Thrown): (r: string)
    ensures t.ErrorObject? ==> r == t.message
    ensures t.NonError? ==> r == ToText(t)
  {
    match t
    case ErrorObject(_, message) => message
    case NonError(text) => text
  }

  /** The error built by `new Error(m)`. */
  function NewError(m: string): (t: Thrown)
    ensures t.ErrorObject? && MessageOf(t) == m
  {
    ErrorObject("Error", m)
  }

  /** Rendering an `Error` built from a non-empty message prefixes it with "Error: ". */
  lemma NewErrorText(m: string)
    requires m != ""
    ensures ToText(NewError(m)) == "Error: " + m
  {
  }

  /** The message the guard extracts is always the tail of the full rendering:
      `String(t)` adds at most a name and a separator in front of it. */
  lemma MessageOfIsSuffixOfText(t: Thrown)
    ensures |MessageOf(t)| <= |ToText(t)|
    ensures ToText(t)[|ToText(t)| - |MessageOf(t)|..] == MessageOf(t)
    ensures t.ErrorObject? && t.name != "" && t.message != "" ==>
      ToText(t)[..|ToText(t)| - |MessageOf(t)|] == t.name + ": "
  {
    if t.ErrorObject? && t.name != "" && t.message != "" {
      var text := t.name + ": " + t.message;
      assert text[|text| - |t.message|..] == t.message;
      assert text[..|text| - |t.message|] == t.name + ": ";
    }
  }
}
