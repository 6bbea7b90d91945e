/** The boundary to code this model does not contain: the language-model service,
    reduced to a total function from a query to a `(success, text)` reply, and the
    Python library calls the parsers rely on (`json.loads`, `float()` of a string,
    `str()` of a decoded JSON value), kept abstract. */
module Oracle {
  import opened Text

  /** What is sent to the language model. The wording of each prompt is not modelled,
      only what goes into it. */
  datatype Query =
    | WeightQuery(message: string, context: string)
      /** An impression prompt: either the configured template (already stripped and
          non-empty) or the built-in one, with the (truncated) history and message. */
    | ImpressionQuery(template: Option<string>, history: string, message: string)

  /** `(success, content)` as every generate call returns it. */
  datatype Reply = Reply(ok: bool, text: string)

  /** The language model: deterministic given its answers. */
  type Llm = Query -> Reply

  /** A value decoded by `json.loads`. */
  datatype Json =
    | JNull
    | JBool(b: bool)
    | JNum(x: real)
    | JStr(s: string)
    | JArr(items: seq<Json>)
    | JObj(fields: map<string, Json>)

  /** Library functions the source calls and this model does not re-implement:
      `json.loads` (None for a `JSONDecodeError`), `float(s)` of a string (None when it
      raises), `str(v)` of a decoded value, and the text of the exception `float(v)`
      raises. */
  datatype Lib = Lib(
    jsonLoads: string -> Option<Json>,
    floatOfString: string -> Option<real>,
    show: Json -> string,
    floatError: Json -> string)

  /** How numbers and times are rendered in text, which this model does not spell out:
      `strftime('%m-%d %H:%M')`, `strftime('%Y-%m-%d %H:%M:%S')` and `f"{x:.1f}"`. */
  datatype Render = Render(shortTime: nat -> string, longTime: nat -> string, score: real -> string)

  /** Python's `float(v)` applied to a decoded JSON value: numbers and booleans convert,
      strings go through `float(str)`, anything else raises. */
  function FloatOf(lib: Lib, v: Json): (r: Option<real>)
    ensures v.JNum? ==> r == Some(v.x)
    ensures v.JNull? || v.JArr? || v.JObj? ==> r.None?
  {
    match v
    case JNum(x) => Some(x)
    case JBool(b) => Some(if b then 1.0 else 0.0)
    case JStr(s) => lib.floatOfString(s)
    case _ => None
  }

  /** The text of a decoded value as `f"{v}"` renders it. */
  function TextOf(lib: Lib, v: Json): (r: string)
    ensures v.JStr? ==> r == v.s
  {
    match v
    case JStr(s) => s
    case _ => lib.show(v)
  }
}
