/**
 * The server-to-client wire protocol: the message types, the framing
 * constants, the messages the server emits and how one is framed.
 */
module Protocol {
  import opened JsValues
  import opened Strings

  // The `StreamMessageType` values as they appear in the `type` member.
  const TypeConnected: string := "connected"
  const TypeToken: string := "token"
  const TypeToolStart: string := "tool_start"
  const TypeToolEnd: string := "tool_end"
  const TypeDone: string := "done"
  const TypeError: string := "error"

  const MessageTypes: seq<string> :=
    [TypeConnected, TypeToken, TypeToolStart, TypeToolEnd, TypeDone, TypeError]

  /** The six type names are pairwise different. */
  lemma MessageTypesDistinct()
    ensures forall i, j :: 0 <= i < j < |MessageTypes| ==> MessageTypes[i] != MessageTypes[j]
  {
    assert TypeToken[0] != TypeToolStart[1];
    assert TypeError[0] != TypeToken[0];
    assert TypeDone[3] != TypeToolEnd[3];
  }

  /** `Object.values(StreamMessageType).includes(v.type)` */
  predicate HasMessageType(j: Json) {
    var t := Field(j, "type");
    t.Some? && t.value.JStr? && t.value.s in MessageTypes
  }

  /**
   * The three framing constants (`SSE_DATA_PREFIX`, `SSE_LINE_DELIMITER`,
   * `SSE_DONE_MESSAGE`), which are parameters of the model.
   */
  datatype Framing = Framing(prefix: string, delimiter: string, doneToken: string)

  /**
   * What the framing constants are taken to satisfy: a non-empty prefix with no
   * newline that does not start with a blank, and a delimiter made of blanks
   * that starts with a newline (such as "\n\n").
   */
  predicate WellFormed(fr: Framing) {
    && fr.prefix != "" && NoNewline(fr.prefix) && !IsWhitespace(fr.prefix[0])
    && |fr.delimiter| > 0 && fr.delimiter[0] == '\n' && AllWhitespace(fr.delimiter)
  }

  /** `sendSSEMessage`: the text written for one message. */
  function Frame(fr: Framing, rt: Runtime, m: Json): (r: string)
    ensures StartsWith(r, fr.prefix)
    ensures |fr.delimiter| <= |r| && r[|r| - |fr.delimiter|..] == fr.delimiter
    ensures |fr.prefix| + |fr.delimiter| <= |r| && r[|fr.prefix|..|r| - |fr.delimiter|] == rt.stringify(m)
  {
    fr.prefix + rt.stringify(m) + fr.delimiter
  }

  /** The text of a sequence of frames written one after another. */
  function Wire(fr: Framing, rt: Runtime, ms: seq<Json>): string
    decreases |ms|
  {
    if ms == [] then "" else Frame(fr, rt, ms[0]) + Wire(fr, rt, ms[1..])
  }

  // The messages the server emits (each also carries `content: ""`).

  function Emitted(t: string, extra: map<string, Json>): Json {
    JObj(extra["type" := JStr(t)]["content" := JStr("")])
  }

  function ConnectedMessage(): Json { Emitted(TypeConnected, map[]) }
  function TokenMessage(text: string): Json { Emitted(TypeToken, map["token" := JStr(text)]) }
  function DoneMessage(): Json { Emitted(TypeDone, map[]) }
  function ToolStartMessage(tool: Json, input: Json): Json {
    Emitted(TypeToolStart, map["tool" := tool, "input" := input])
  }
  function ToolEndMessage(tool: Json, output: Json): Json {
    Emitted(TypeToolEnd, map["tool" := tool, "output" := output])
  }
  function ErrorMessage(error: string): Json { Emitted(TypeError, map["error" := JStr(error)]) }

  /** The type a message emitted by the server carries. */
  lemma EmittedType(t: string, extra: map<string, Json>)
    ensures Field(Emitted(t, extra), "type") == Some(JStr(t))
    ensures t in MessageTypes ==> HasMessageType(Emitted(t, extra))
  {
  }

  /** The members of the token and tool messages the server builds, besides their type. */
  lemma ServerMembers(text: string, tool: Json, input: Json, output: Json)
    ensures Field(TokenMessage(text), "type") == Some(JStr(TypeToken))
    ensures Field(TokenMessage(text), "token") == Some(JStr(text))
    ensures Field(ToolStartMessage(tool, input), "type") == Some(JStr(TypeToolStart))
    ensures Field(ToolStartMessage(tool, input), "tool") == Some(tool)
    ensures Field(ToolStartMessage(tool, input), "input") == Some(input)
    ensures Field(ToolEndMessage(tool, output), "type") == Some(JStr(TypeToolEnd))
    ensures Field(ToolEndMessage(tool, output), "tool") == Some(tool)
    ensures Field(ToolEndMessage(tool, output), "output") == Some(output)
  {
    assert "token" != "content" && "tool" != "content" && "input" != "content" && "output" != "content";
    assert "token" != "type" && "tool" != "type" && "input" != "type" && "output" != "type";
  }

  // The messages the client-side parser synthesises.

  /** What the done sentinel decodes to. */
  function DoneSentinelMessage(): Json { JObj(map["type" := JStr(TypeDone)]) }

  const ParseFailureText: string := "Failed to parse SSE message"

  /** What a prefixed line that does not decode yields. */
  function ParseErrorMessage(): Json {
    JObj(map["type" := JStr(TypeError), "error" := JStr(ParseFailureText)])
  }

  /**
   * The encoding of `m` can be carried in one frame and read back: it is
   * non-blank at both ends, holds no newline, is not the done sentinel, and
   * `JSON.parse` recovers `m`.
   */
  predicate Transmissible(fr: Framing, rt: Runtime, m: Json) {
    var e := rt.stringify(m);
    && e != "" && NoNewline(e) && !IsWhitespace(e[0]) && !IsWhitespace(e[|e| - 1])
    && e != fr.doneToken
    && rt.parse(e) == Some(m)
    && HasMessageType(m)
  }
}
