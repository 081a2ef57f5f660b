/**
 * Values that cross the boundaries of the chat pipeline: decoded JSON, the
 * content of a chat message, and the host runtime's opaque conversions.
 */
module JsValues {

  datatype Option<+T> = None | Some(value: T)

  /** A value as `JSON.parse` produces it (numbers are kept as reals). */
  datatype Json =
    | JNull
    | JBool(b: bool)
    | JNum(n: real)
    | JStr(s: string)
    | JArr(items: seq<Json>)
    | JObj(fields: map<string, Json>)

  /** JavaScript truthiness of a decoded value (NaN is not modelled). */
  predicate Truthy(j: Json) {
    match j
    case JNull => false
    case JBool(b) => b
    case JNum(n) => n != 0.0
    case JStr(s) => s != ""
    case _ => true
  }

  /** `k in o` followed by `o[k]`: the member `k` of an object, if present. */
  function Field(j: Json, k: string): (r: Option<Json>)
    ensures r.Some? <==> j.JObj? && k in j.fields
    ensures r.Some? ==> r.value == j.fields[k]
  {
    if j.JObj? && k in j.fields then Some(j.fields[k]) else None
  }

  /**
   * The conversions of the JavaScript runtime that the code relies on. They
   * are parameters of the model: nothing is assumed about them except where a
   * lemma says so explicitly.
   */
  datatype Runtime = Runtime(
    stringify: Json -> string,          // JSON.stringify(v)
    stringifyIndented: Json -> string,  // JSON.stringify(v, null, 2)
    parse: string -> Option<Json>,      // JSON.parse(s); None when it throws
    toText: Json -> string)             // String(v) for a value that is not a string

  /** `String(v)`: strings convert to themselves, everything else through the runtime. */
  function JsText(rt: Runtime, j: Json): (r: string)
    ensures j.JStr? ==> r == j.s
  {
    if j.JStr? then j.s else rt.toText(j)
  }

  /**
   * One part of a multi-part message content. `text` is None when the part has
   * no string `text` member; `ephemeral` is the `cache_control: {type: "ephemeral"}`
   * hint.
   */
  datatype Part = Part(partType: string, text: Option<string>, ephemeral: bool)

  /** The `text` of a part, a missing one read as "". */
  function PartText(p: Part): (r: string)
    ensures p.text.Some? ==> r == p.text.value
    ensures p.text.None? ==> r == ""
  {
    if p.text.Some? then p.text.value else ""
  }

  /**
   * The content of a chat message: a string, an array of parts, or any other
   * (non-string, non-array) value.
   */
  datatype Content =
    | Text(text: string)
    | Parts(parts: seq<Part>)
    | Structured(value: Json)

  /** Truthiness of a message content (an array is always truthy). */
  predicate ContentTruthy(c: Content) {
    match c
    case Text(s) => s != ""
    case Parts(_) => true
    case Structured(j) => Truthy(j)
  }

  function PartJson(p: Part): Json {
    var base := map["type" := JStr(p.partType)];
    var withText := if p.text.Some? then base["text" := JStr(p.text.value)] else base;
    JObj(if p.ephemeral then withText["cache_control" := JObj(map["type" := JStr("ephemeral")])] else withText)
  }

  function PartsJson(ps: seq<Part>): (r: Json)
    ensures r.JArr? && |r.items| == |ps|
    ensures forall i :: 0 <= i < |ps| ==> r.items[i] == PartJson(ps[i])
  {
    JArr(seq(|ps|, i requires 0 <= i < |ps| => PartJson(ps[i])))
  }

  /** The JSON value a content stands for (what `JSON.stringify` is applied to). */
  function ContentJson(c: Content): Json {
    match c
    case Text(s) => JStr(s)
    case Parts(ps) => PartsJson(ps)
    case Structured(j) => j
  }

  /** A thrown value: `message` is present when it is an `Error` instance. */
  datatype Thrown = Thrown(message: Option<string>)

  /** `e instanceof Error ? e.message : fallback` */
  function ErrorText(f: Thrown, fallback: string): (r: string)
    ensures f.message.None? ==> r == fallback
    ensures f.message.Some? ==> r == f.message.value
  {
    if f.message.Some? then f.message.value else fallback
  }
}
