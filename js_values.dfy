/** The JavaScript values that pass through `console.log` and `throw`, and
    the renderings the output capture and the error line use. What
    `JSON.stringify` and `String` print for a value other than a string
    belongs to the runtime, so a `Renderer` carries those renderings as
    opaque functions. */
module JsValues {
  import opened Wrappers

  /** A JavaScript value as far as the core distinguishes it: a string,
      `null`, any other value whose `typeof` is `"object"`, a function, or
      any other primitive (a number, a boolean, `undefined`, a symbol or a
      bigint). Objects, functions and the other primitives are opaque
      handles. */
  datatype Value =
    | Str(s: string)
    | Null
    | Composite(handle: nat)
    | Callable(handle: nat)
    | Primitive(handle: nat)
  {
    /** Converting the value to a string runs methods the value itself
        carries (`Symbol.toPrimitive`, `toString`, `valueOf`): true of
        objects other than `null` and of functions, which may override
        them or lack them. */
    predicate ConvertsThroughOwnMethods()
    {
      Composite? || Callable?
    }
  }

  /** What a `throw` delivers: an `Error` instance with its message, or any
      other thrown value. */
  datatype Thrown =
    | ErrorInstance(message: string)
    | OtherThrown(value: Value)

  /** The runtime's renderings of values that are not strings:
      `json` is `JSON.stringify(v, null, 2)` of an object other than
      `null`, `text` is
      `String(v)` of a primitive, and `objectText` is `String(v)` of an
      object or a function. The last one runs the value's own conversion
      methods, so it can throw (an object made with `Object.create(null)`
      has none, and a function's `toString` may be replaced by one that
      throws). */
  datatype Renderer = Renderer(
    json: Value -> string,
    text: Value -> string,
    objectText: Value -> Result<string, Thrown>)

  /** `String(v)`: a string is its own string form, and only the
      conversion of an object or a function can throw. */
  function StringOf(render: Renderer, v: Value): (r: Result<string, Thrown>)
    ensures v.Str? ==> r == Success(v.s)
    ensures v.Null? ==> r == Success("null")
    ensures v.Primitive? ==> r == Success(render.text(v))
    ensures r.Failure? ==> v.ConvertsThroughOwnMethods()
    ensures v.ConvertsThroughOwnMethods() ==> r == render.objectText(v)
  {
    match v
    case Str(s) => Success(s)
    case Null => Success("null")
    case Composite(_) => render.objectText(v)
    case Callable(_) => render.objectText(v)
    case Primitive(_) => Success(render.text(v))
  }

  /** How the capture wrapper renders one argument: objects (`typeof` is
      `"object"`; `JSON.stringify(null)` is `null`) as pretty-printed JSON,
      everything else via `String`.
      Both are taken to succeed here: a function argument is rendered by
      `text`, as if its conversion did not throw. */
  function RenderArg(render: Renderer, v: Value): (r: string)
    ensures v.Str? ==> r == v.s
    ensures v.Null? ==> r == "null"
    ensures v.Composite? ==> r == render.json(v)
    ensures v.Primitive? || v.Callable? ==> r == render.text(v)
  {
    match v
    case Str(s) => s
    case Null => "null"
    case Composite(_) => render.json(v)
    case Callable(_) => render.text(v)
    case Primitive(_) => render.text(v)
  }
}
