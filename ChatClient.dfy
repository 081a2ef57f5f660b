/**
 * The chat component's submission logic: the guard, the request it sends,
 * the rendering of tool activity as terminal blocks, and the fold of the
 * parsed stream messages into the response text and the message list.
 */
module ChatClient {
  import opened JsValues
  import opened Strings
  import opened Protocol
  import opened SseParser

  // ---------------------------------------------------------------------------
  // Terminal blocks

  /** `formatToolOutput`: a string is shown as it is, anything else as indented JSON. */
  function FormatToolOutput(rt: Runtime, v: Json): (r: string)
    ensures v.JStr? ==> r == v.s
    ensures !v.JStr? ==> r == rt.stringifyIndented(v)
  {
    if v.JStr? then v.s else rt.stringifyIndented(v)
  }

  /** The opening of every terminal block's markup, which the tool end searches for. */
  const TerminalMarker: string := "<div class=\"bg-[#1e1e1e]"

  const BlockStart: string := "---START---\n"
  const BlockEnd: string := "\n---END---"
  const ProcessingText: string := "Processing..."

  /** The markup of a terminal block: the marker, then the rest of the markup. */
  function TerminalHtml(tool: string, input: string, output: string): string {
    TerminalMarker + TerminalBody(tool, input, output)
  }

  // The fixed pieces of the markup after the marker, in order (the three dots are U+25CF).
  const Markup0: string := " text-white font-mono p-2 rounded-md my-2 overflow-x-auto whitespace-normal max-w-[600px]\">\n"
  const Markup1: string := "      <div class=\"flex items-center gap-1.5 border-b border-gray-700 pb-1\">\n"
  const Markup2: string := "        <span class=\"text-red-500\">\U{25CF}</span>\n"
  const Markup3: string := "        <span class=\"text-yellow-500\">\U{25CF}</span>\n"
  const Markup4: string := "        <span class=\"text-green-500\">\U{25CF}</span>\n"
  const Markup5: string := "        <span class=\"text-gray-400 ml-1 text-sm\">~/"
  const Markup6: string := "</span>\n"
  const Markup7: string := "      </div>\n"
  const Markup8: string := "      <div class=\"text-gray-400 mt-1\">$ Input</div>\n"
  const Markup9: string := "      <pre class=\"text-yellow-400 mt-0.5 whitespace-pre-wrap overflow-x-auto\">"
  const Markup10: string := "</pre>\n"
  const Markup11: string := "      <div class=\"text-gray-400 mt-2\">$ Output</div>\n"
  const Markup12: string := "      <pre class=\"text-green-400 mt-0.5 whitespace-pre-wrap overflow-x-auto\">"
  const Markup13: string := "</pre>\n"
  const Markup14: string := "    </div>"

  /** The markup after the marker. */
  function TerminalBody(tool: string, input: string, output: string): string {
    Markup0
    + Markup1
    + Markup2
    + Markup3
    + Markup4
    + Markup5 + tool + Markup6
    + Markup7
    + Markup8
    + Markup9 + input + Markup10
    + Markup11
    + Markup12 + output + Markup13
    + Markup14
  }

  /** `formatTerminalOutput` */
  function FormatTerminalOutput(rt: Runtime, tool: Json, input: Json, output: Json): string {
    BlockStart + TerminalHtml(JsText(rt, tool), FormatToolOutput(rt, input), FormatToolOutput(rt, output)) + BlockEnd
  }

  predicate EndsWith(s: string, q: string) {
    |q| <= |s| && s[|s| - |q|..] == q
  }

  /**
   * A block starts with the start line followed by the marker and ends with
   * the end line; the marker occurs right after the start line.
   */
  lemma TerminalBlockShape(rt: Runtime, tool: Json, input: Json, output: Json)
    ensures var b := FormatTerminalOutput(rt, tool, input, output);
      && StartsWith(b, BlockStart + TerminalMarker)
      && EndsWith(b, BlockEnd)
      && OccursAt(b, TerminalMarker, |BlockStart|)
  {
    var body := TerminalBody(JsText(rt, tool), FormatToolOutput(rt, input), FormatToolOutput(rt, output));
    BlockLayout(body);
  }

  lemma BlockLayout(body: string)
    ensures var b := BlockStart + (TerminalMarker + body) + BlockEnd;
      && StartsWith(b, BlockStart + TerminalMarker)
      && EndsWith(b, BlockEnd)
      && OccursAt(b, TerminalMarker, |BlockStart|)
  {
    var b := BlockStart + (TerminalMarker + body) + BlockEnd;
    var head := BlockStart + TerminalMarker;
    assert b == head + (body + BlockEnd);
    assert b[..|head|] == head;
    assert b[|b| - |BlockEnd|..] == BlockEnd;
    assert head[|BlockStart|..] == TerminalMarker;
    assert b[|BlockStart|..|BlockStart| + |TerminalMarker|] == head[|BlockStart|..];
  }

  // ---------------------------------------------------------------------------
  // The submission

  /** A message shown in the chat. */
  datatype UiMessage = UiMessage(id: string, role: string, content: Content)

  /** A message of the request's history. */
  datatype RequestMessage = RequestMessage(role: string, content: Content)

  datatype RequestBody = RequestBody(messages: seq<RequestMessage>, newMessage: string, chatId: string)

  /** The submit guard: the trimmed input, when it is not empty and no request is loading. */
  function AcceptedInput(input: string, isLoading: bool): (r: Option<string>)
    ensures r.Some? <==> Trim(input) != "" && !isLoading
    ensures r.Some? ==> r.value == Trim(input)
  {
    var trimmed := Trim(input);
    if trimmed == "" || isLoading then None else Some(trimmed)
  }

  /** `content.find(part => part.type === "text")?.text || ""` */
  function FirstTextPart(ps: seq<Part>): string
    decreases |ps|
  {
    if ps == [] then ""
    else if ps[0].partType == "text" then PartText(ps[0])
    else FirstTextPart(ps[1..])
  }

  /** The text of the first part of type "text", or "" when there is none. */
  lemma {:induction false} FirstTextPartSpec(ps: seq<Part>)
    ensures (forall k :: 0 <= k < |ps| ==> ps[k].partType != "text") ==> FirstTextPart(ps) == ""
    ensures forall j :: 0 <= j < |ps| && ps[j].partType == "text" && (forall k :: 0 <= k < j ==> ps[k].partType != "text") ==>
      FirstTextPart(ps) == PartText(ps[j])
    decreases |ps|
  {
    if ps != [] && ps[0].partType != "text" {
      FirstTextPartSpec(ps[1..]);
      forall j | 0 <= j < |ps| && ps[j].partType == "text" && (forall k :: 0 <= k < j ==> ps[k].partType != "text")
        ensures FirstTextPart(ps) == PartText(ps[j])
      {
        assert j > 0;
        assert ps[1..][j - 1] == ps[j];
        assert forall k :: 0 <= k < j - 1 ==> ps[1..][k] == ps[k + 1];
      }
      if forall k :: 0 <= k < |ps| ==> ps[k].partType != "text" {
        assert forall k :: 0 <= k < |ps| - 1 ==> ps[1..][k] == ps[k + 1];
      }
    }
  }

  /** The request's view of a message: multi-part content becomes its first text. */
  function PromptMessage(m: UiMessage): RequestMessage {
    RequestMessage(m.role, if m.content.Parts? then Text(FirstTextPart(m.content.parts)) else m.content)
  }

  function BuildRequest(history: seq<UiMessage>, newMessage: string, chatId: string): (r: RequestBody)
    ensures |r.messages| == |history|
    ensures forall i :: 0 <= i < |history| ==> r.messages[i] == PromptMessage(history[i])
  {
    RequestBody(seq(|history|, i requires 0 <= i < |history| => PromptMessage(history[i])), newMessage, chatId)
  }

  /**
   * The request carries every earlier message in order, with its role; no
   * content is multi-part any more; string content is sent unchanged.
   */
  lemma RequestSpec(history: seq<UiMessage>, newMessage: string, chatId: string)
    ensures var r := BuildRequest(history, newMessage, chatId);
      && r.newMessage == newMessage && r.chatId == chatId
      && (forall i :: 0 <= i < |history| ==> r.messages[i].role == history[i].role && !r.messages[i].content.Parts?)
      && (forall i :: 0 <= i < |history| && history[i].content.Text? ==> r.messages[i].content == history[i].content)
  {
  }

  // ---------------------------------------------------------------------------
  // The fold over the parsed messages

  /** The tool the component remembers (`currentTool`). */
  datatype ToolInfo = ToolInfo(name: Json, input: Json)

  /**
   * What the handler has built so far: `fullResponse`, the streamed response
   * shown, the remembered tool and the message list.
   */
  datatype View = View(full: string, shown: string, tool: Option<ToolInfo>, messages: seq<UiMessage>)

  /** The processing of one message: go on, stop the chunk (done), or throw. */
  datatype StepResult = Next(view: View) | Finish(view: View) | Abort(view: View, error: string)

  const UnknownErrorText: string := "Unknown error"

  /**
   * One message of a chunk. `captured` is the tool the closure saw when the
   * submission started; `store` is the outcome of saving the assistant
   * message; `assistantId` the id given to it.
   */
  function Step(rt: Runtime, captured: Option<ToolInfo>, store: Option<Thrown>, assistantId: string, v: View, m: Json): StepResult {
    var t := Field(m, "type");
    if t.None? || !Truthy(t.value) then Next(v)
    else if t.value == JStr(TypeToken) then
      var token := Field(m, "token");
      if token.Some? && token.value.JStr? then
        var f := v.full + token.value.s;
        Next(v.(full := f, shown := f))
      else Next(v)
    else if t.value == JStr(TypeToolStart) then
      var tool, input := Field(m, "tool"), Field(m, "input");
      if tool.Some? && input.Some? then
        var f := v.full + FormatTerminalOutput(rt, tool.value, input.value, JStr(ProcessingText));
        Next(v.(full := f, shown := f, tool := Some(ToolInfo(tool.value, input.value))))
      else Next(v)
    else if t.value == JStr(TypeToolEnd) then
      var tool, output := Field(m, "tool"), Field(m, "output");
      if tool.Some? && output.Some? && captured.Some? then
        var k := LastIndexOf(v.full, TerminalMarker);
        if k != -1 then
          var f := v.full[..k] + FormatTerminalOutput(rt, tool.value, captured.value.input, output.value);
          Next(v.(full := f, shown := f, tool := None))
        else Next(v.(tool := None))
      else Next(v)
    else if t.value == JStr(TypeError) then
      var e := Field(m, "error");
      if e.Some? then Abort(v, JsText(rt, e.value)) else Next(v)
    else if t.value == JStr(TypeDone) then
      if store.Some? then Abort(v, ErrorText(store.value, UnknownErrorText))
      else Finish(v.(messages := v.messages + [UiMessage(assistantId, "assistant", Text(v.full))], shown := ""))
    else Next(v)
  }

  /** The `for` loop over one chunk's messages. */
  function FoldMessages(rt: Runtime, captured: Option<ToolInfo>, store: Option<Thrown>, assistantId: string, v: View, ms: seq<Json>): StepResult
    decreases |ms|
  {
    if ms == [] then Next(v)
    else match Step(rt, captured, store, assistantId, v, ms[0])
      case Next(v') => FoldMessages(rt, captured, store, assistantId, v', ms[1..])
      case other => other
  }

  /**
   * The stream loop: each chunk is parsed, then its messages are folded; a
   * `done` ends only its chunk, a thrown error ends the stream.
   */
  function FoldStream(fr: Framing, rt: Runtime, captured: Option<ToolInfo>, store: Option<Thrown>, assistantId: string,
                      buffer: string, v: View, chunks: seq<string>): StepResult
    decreases |chunks|
  {
    if chunks == [] then Next(v)
    else
      var (ms, rest) := ParseStep(fr, rt, buffer, chunks[0]);
      match FoldMessages(rt, captured, store, assistantId, v, ms)
      case Abort(v', e) => Abort(v', e)
      case Next(v') => FoldStream(fr, rt, captured, store, assistantId, rest, v', chunks[1..])
      case Finish(v') => FoldStream(fr, rt, captured, store, assistantId, rest, v', chunks[1..])
  }

  /** The type names the handler tells apart. */
  lemma TypeNames()
    ensures TypeToken != TypeToolStart && TypeToken != TypeToolEnd && TypeToken != TypeError && TypeToken != TypeDone
    ensures TypeToolStart != TypeToolEnd && TypeToolStart != TypeError && TypeToolStart != TypeDone
    ensures TypeToolEnd != TypeError && TypeToolEnd != TypeDone && TypeError != TypeDone
  {
    MessageTypesDistinct();
    assert TypeToken == MessageTypes[1] && TypeToolStart == MessageTypes[2] && TypeToolEnd == MessageTypes[3];
    assert TypeDone == MessageTypes[4] && TypeError == MessageTypes[5];
  }

  /**
   * A token message whose `token` member is a string appends exactly it to the
   * response; without a string `token` nothing changes.
   */
  lemma TokenStep(rt: Runtime, captured: Option<ToolInfo>, store: Option<Thrown>, aid: string, v: View, m: Json)
    requires Field(m, "type") == Some(JStr(TypeToken))
    ensures var token := Field(m, "token");
      && (token.Some? && token.value.JStr? ==>
            Step(rt, captured, store, aid, v, m) == Next(v.(full := v.full + token.value.s, shown := v.full + token.value.s)))
      && (!(token.Some? && token.value.JStr?) ==> Step(rt, captured, store, aid, v, m) == Next(v))
  {
  }

  /** A message without a (truthy) type is skipped. */
  lemma UntypedSkipped(rt: Runtime, captured: Option<ToolInfo>, store: Option<Thrown>, aid: string, v: View, m: Json)
    requires Field(m, "type").None? || !Truthy(Field(m, "type").value)
    ensures Step(rt, captured, store, aid, v, m) == Next(v)
  {
  }

  /**
   * A tool start with both `tool` and `input` appends a block whose output
   * reads "Processing..." and remembers the tool; without them nothing changes.
   */
  lemma ToolStartStep(rt: Runtime, captured: Option<ToolInfo>, store: Option<Thrown>, aid: string, v: View, m: Json)
    requires Field(m, "type") == Some(JStr(TypeToolStart))
    ensures var tool, input := Field(m, "tool"), Field(m, "input");
      && (tool.Some? && input.Some? ==>
            var f := v.full + FormatTerminalOutput(rt, tool.value, input.value, JStr(ProcessingText));
            Step(rt, captured, store, aid, v, m) == Next(v.(full := f, shown := f, tool := Some(ToolInfo(tool.value, input.value)))))
      && (!(tool.Some? && input.Some?) ==> Step(rt, captured, store, aid, v, m) == Next(v))
  {
    TypeNames();
  }

  /**
   * A tool end rewrites the response only when it has `tool` and `output`, a
   * tool was captured and the marker occurs: the text before the last marker,
   * then a fresh block with the captured input and the reported output. With
   * no marker only the remembered tool is forgotten; otherwise nothing changes.
   */
  lemma ToolEndStep(rt: Runtime, captured: Option<ToolInfo>, store: Option<Thrown>, aid: string, v: View, m: Json)
    requires Field(m, "type") == Some(JStr(TypeToolEnd))
    ensures var r := Step(rt, captured, store, aid, v, m);
      var tool, output := Field(m, "tool"), Field(m, "output");
      var k := LastIndexOf(v.full, TerminalMarker);
      && (!(tool.Some? && output.Some? && captured.Some?) ==> r == Next(v))
      && (tool.Some? && output.Some? && captured.Some? && k == -1 ==> r == Next(v.(tool := None)))
      && (tool.Some? && output.Some? && captured.Some? && k != -1 ==>
            var f := v.full[..k] + FormatTerminalOutput(rt, tool.value, captured.value.input, output.value);
            r == Next(v.(full := f, shown := f, tool := None)))
  {
    TypeNames();
  }

  /** The messages the server writes for tokens and tools reach these cases with their own members. */
  lemma ServerMessageSteps(rt: Runtime, captured: Option<ToolInfo>, store: Option<Thrown>, aid: string, v: View,
                           text: string, tool: Json, input: Json, output: Json)
    ensures Step(rt, captured, store, aid, v, TokenMessage(text)) == Next(v.(full := v.full + text, shown := v.full + text))
    ensures var f := v.full + FormatTerminalOutput(rt, tool, input, JStr(ProcessingText));
      Step(rt, captured, store, aid, v, ToolStartMessage(tool, input))
        == Next(v.(full := f, shown := f, tool := Some(ToolInfo(tool, input))))
    ensures captured.None? ==> Step(rt, captured, store, aid, v, ToolEndMessage(tool, output)) == Next(v)
    ensures captured.Some? && LastIndexOf(v.full, TerminalMarker) != -1 ==>
      var f := v.full[..LastIndexOf(v.full, TerminalMarker)] + FormatTerminalOutput(rt, tool, captured.value.input, output);
      Step(rt, captured, store, aid, v, ToolEndMessage(tool, output)) == Next(v.(full := f, shown := f, tool := None))
  {
    ServerMembers(text, tool, input, output);
    TokenStep(rt, captured, store, aid, v, TokenMessage(text));
    ToolStartStep(rt, captured, store, aid, v, ToolStartMessage(tool, input));
    ToolEndStep(rt, captured, store, aid, v, ToolEndMessage(tool, output));
  }

  /** A tool start (with its members) in terms of its own `tool` and `input`. */
  predicate IsToolStart(m: Json) {
    Field(m, "type") == Some(JStr(TypeToolStart)) && Field(m, "tool").Some? && Field(m, "input").Some?
  }

  /** A tool end (with its members) in terms of its own `tool` and `output`. */
  predicate IsToolEnd(m: Json) {
    Field(m, "type") == Some(JStr(TypeToolEnd)) && Field(m, "tool").Some? && Field(m, "output").Some?
  }

  /**
   * A tool start followed by its tool end: the response keeps everything
   * before the block and the block's start line, and ends with the re-rendered
   * block.
   */
  lemma ToolStartThenEnd(rt: Runtime, ci: ToolInfo, store: Option<Thrown>, aid: string, v: View, m1: Json, m2: Json)
    requires IsToolStart(m1) && IsToolEnd(m2)
    ensures var r := FoldMessages(rt, Some(ci), store, aid, v, [m1, m2]);
      var block := FormatTerminalOutput(rt, Field(m2, "tool").value, ci.input, Field(m2, "output").value);
      && r.Next?
      && StartsWith(r.view.full, v.full + BlockStart)
      && EndsWith(r.view.full, block)
  {
    var tool, input := Field(m1, "tool").value, Field(m1, "input").value;
    var b := FormatTerminalOutput(rt, tool, input, JStr(ProcessingText));
    ToolStartStep(rt, Some(ci), store, aid, v, m1);
    var v1 := Step(rt, Some(ci), store, aid, v, m1).view;
    assert v1.full == v.full + b;
    TerminalBlockShape(rt, tool, input, JStr(ProcessingText));
    CutKeepsStart(v.full, b);
    ToolEndStep(rt, Some(ci), store, aid, v1, m2);
    var block := FormatTerminalOutput(rt, Field(m2, "tool").value, ci.input, Field(m2, "output").value);
    var k := LastIndexOf(v1.full, TerminalMarker);
    var v2 := Step(rt, Some(ci), store, aid, v1, m2).view;
    assert v2.full == v1.full[..k] + block;
    PrefixThenSuffix(v1.full[..k], block, v.full + BlockStart);
    FoldTwo(rt, Some(ci), store, aid, v, m1, m2);
  }

  /**
   * The tool end consults the tool captured when the submission started, not
   * the one the tool start just recorded: with none captured, the tool end is
   * ignored, so the response keeps the block that reads "Processing..." and
   * the started tool stays remembered.
   */
  lemma ToolEndWithoutCapturedTool(rt: Runtime, store: Option<Thrown>, aid: string, v: View, m1: Json, m2: Json)
    requires IsToolStart(m1) && Field(m2, "type") == Some(JStr(TypeToolEnd))
    ensures var tool, input := Field(m1, "tool").value, Field(m1, "input").value;
      var f := v.full + FormatTerminalOutput(rt, tool, input, JStr(ProcessingText));
      FoldMessages(rt, None, store, aid, v, [m1, m2]) == Next(v.(full := f, shown := f, tool := Some(ToolInfo(tool, input))))
  {
    ToolStartStep(rt, None, store, aid, v, m1);
    var v1 := Step(rt, None, store, aid, v, m1).view;
    ToolEndStep(rt, None, store, aid, v1, m2);
    FoldTwo(rt, None, store, aid, v, m1, m2);
  }

  /** Two messages that each continue fold to the second one's view. */
  lemma FoldTwo(rt: Runtime, captured: Option<ToolInfo>, store: Option<Thrown>, aid: string, v: View, m1: Json, m2: Json)
    ensures var s1 := Step(rt, captured, store, aid, v, m1);
      s1.Next? && Step(rt, captured, store, aid, s1.view, m2).Next? ==>
        FoldMessages(rt, captured, store, aid, v, [m1, m2]) == Step(rt, captured, store, aid, s1.view, m2)
  {
    var s1 := Step(rt, captured, store, aid, v, m1);
    assert [m1, m2][1..] == [m2] && [m2][1..] == [];
    if s1.Next? {
      var s2 := Step(rt, captured, store, aid, s1.view, m2);
      if s2.Next? {
        assert FoldMessages(rt, captured, store, aid, s2.view, []) == s2;
        assert FoldMessages(rt, captured, store, aid, s1.view, [m2]) == s2;
      }
    }
  }

  /** Appending a block: the last marker is at or after the block's own one. */
  lemma CutKeepsStart(full: string, b: string)
    requires StartsWith(b, BlockStart + TerminalMarker) && OccursAt(b, TerminalMarker, |BlockStart|)
    ensures var k := LastIndexOf(full + b, TerminalMarker);
      k >= |full| + |BlockStart| && StartsWith((full + b)[..k], full + BlockStart)
  {
    var f := full + b;
    var p := |full| + |BlockStart|;
    assert f[p..p + |TerminalMarker|] == b[|BlockStart|..|BlockStart| + |TerminalMarker|];
    assert OccursAt(f, TerminalMarker, p);
    var k := LastIndexOf(f, TerminalMarker);
    assert b[..|BlockStart|] == (BlockStart + TerminalMarker)[..|BlockStart|];
    assert f[..k][..p] == f[..p] == full + b[..|BlockStart|];
  }

  lemma PrefixThenSuffix(a: string, block: string, p: string)
    requires StartsWith(a, p)
    ensures StartsWith(a + block, p) && EndsWith(a + block, block)
  {
    assert (a + block)[..|p|] == a[..|p|];
    assert (a + block)[|a + block| - |block|..] == block;
  }

  /** A `done` stops the chunk: the assistant message holds the response and later messages are not looked at. */
  lemma DoneEndsChunk(rt: Runtime, captured: Option<ToolInfo>, aid: string, v: View, rest: seq<Json>)
    ensures FoldMessages(rt, captured, None, aid, v, [DoneMessage()] + rest) ==
      Finish(v.(messages := v.messages + [UiMessage(aid, "assistant", Text(v.full))], shown := ""))
  {
    assert ([DoneMessage()] + rest)[0] == DoneMessage();
  }

  /** An `error` message aborts with its text, whatever follows; so does a line the parser could not decode. */
  lemma ErrorAborts(rt: Runtime, captured: Option<ToolInfo>, store: Option<Thrown>, aid: string, v: View, error: string, rest: seq<Json>)
    ensures FoldMessages(rt, captured, store, aid, v, [ErrorMessage(error)] + rest) == Abort(v, error)
    ensures FoldMessages(rt, captured, store, aid, v, [ParseErrorMessage()] + rest) == Abort(v, ParseFailureText)
  {
    assert ([ErrorMessage(error)] + rest)[0] == ErrorMessage(error);
    assert ([ParseErrorMessage()] + rest)[0] == ParseErrorMessage();
  }

  /** The folding of a chunk never removes or reorders messages of the list: it can only append. */
  lemma {:induction false} FoldKeepsMessages(rt: Runtime, captured: Option<ToolInfo>, store: Option<Thrown>, aid: string, v: View, ms: seq<Json>)
    ensures var r := FoldMessages(rt, captured, store, aid, v, ms);
      |v.messages| <= |r.view.messages| && r.view.messages[..|v.messages|] == v.messages
    decreases |ms|
  {
    if ms != [] {
      var s := Step(rt, captured, store, aid, v, ms[0]);
      if s.Next? {
        FoldKeepsMessages(rt, captured, store, aid, s.view, ms[1..]);
        assert s.view.messages == v.messages;
      } else if s.Finish? {
        assert s.view.messages[..|v.messages|] == v.messages;
      }
    }
  }

  // ---------------------------------------------------------------------------
  // The component

  /**
   * What `fetch` gave: an error status with its text, no body, or a stream, or
   * a throw. A stream is the text chunks it delivers, then either its end
   * (`failure` is None) or a `reader.read()` that rejects with `failure`.
   */
  datatype HttpOutcome = Rejected(text: string) | NoBody | Streamed(chunks: seq<string>, failure: Option<Thrown>) | FetchFailed(thrown: Thrown)

  const NoBodyText: string := "No response body available"

  /** The whole `try` block of a submission, from the request to the end of the stream. */
  function RunSubmission(fr: Framing, rt: Runtime, captured: Option<ToolInfo>, store: Option<Thrown>, aid: string,
                         response: HttpOutcome, v: View): StepResult
  {
    match response
    case Rejected(text) => Abort(v, text)
    case NoBody => Abort(v, NoBodyText)
    case FetchFailed(th) => Abort(v, ErrorText(th, UnknownErrorText))
    case Streamed(chunks, failure) => ReadFailure(FoldStream(fr, rt, captured, store, aid, "", v, chunks), failure)
  }

  /**
   * The read loop's end: a rejected read, re-thrown by `processStream`, aborts
   * after the chunks before it took effect, unless one of them threw already.
   */
  function ReadFailure(s: StepResult, failure: Option<Thrown>): (r: StepResult)
    ensures r.view == s.view
    ensures r.Abort? <==> s.Abort? || failure.Some?
    ensures s.Abort? ==> r == s
    ensures !s.Abort? && failure.Some? ==> r.error == ErrorText(failure.value, UnknownErrorText)
  {
    if s.Abort? || failure.None? then s else Abort(s.view, ErrorText(failure.value, UnknownErrorText))
  }

  function WithoutId(ms: seq<UiMessage>, id: string): (r: seq<UiMessage>)
    ensures forall i :: 0 <= i < |r| ==> r[i].id != id && r[i] in ms
    ensures forall m :: m in ms && m.id != id ==> m in r
    decreases |ms|
  {
    if ms == [] then []
    else (if ms[0].id == id then [] else [ms[0]]) + WithoutId(ms[1..], id)
  }

  /** The filter keeps order: it distributes over concatenation. */
  lemma {:induction false} WithoutIdAppend(a: seq<UiMessage>, b: seq<UiMessage>, id: string)
    ensures WithoutId(a + b, id) == WithoutId(a, id) + WithoutId(b, id)
    decreases |a|
  {
    if a == [] {
      assert a + b == b;
    } else {
      assert (a + b)[0] == a[0];
      assert (a + b)[1..] == a[1..] + b;
      WithoutIdAppend(a[1..], b, id);
    }
  }

  /** A list without the id is kept as it is, order and repetitions included. */
  lemma {:induction false} WithoutIdKeepsOthers(ms: seq<UiMessage>, id: string)
    requires forall i :: 0 <= i < |ms| ==> ms[i].id != id
    ensures WithoutId(ms, id) == ms
    decreases |ms|
  {
    if ms != [] {
      WithoutIdKeepsOthers(ms[1..], id);
    }
  }

  /** The block shown when a submission fails. */
  function ErrorBlock(rt: Runtime, error: string): string {
    FormatTerminalOutput(rt, JStr("error"), JStr("Failed to process message"), JStr(error))
  }

  lemma {:induction false} WithoutIdSkipsOthers(ms: seq<UiMessage>, m: UiMessage, id: string)
    requires m.id == id
    ensures WithoutId(ms + [m], id) == WithoutId(ms, id)
    decreases |ms|
  {
    if ms == [] {
      assert [m][1..] == [];
    } else {
      assert (ms + [m])[1..] == ms[1..] + [m];
      WithoutIdSkipsOthers(ms[1..], m, id);
    }
  }

  class ChatInterface {
    var isLoading: bool
    var messages: seq<UiMessage>
    var input: string
    var streamedResponse: string
    var currentTool: Option<ToolInfo>

    constructor (initialMessages: seq<UiMessage>)
      ensures messages == initialMessages && !isLoading && input == "" && streamedResponse == "" && currentTool.None?
    {
      isLoading := false;
      messages := initialMessages;
      input := "";
      streamedResponse := "";
      currentTool := None;
    }

    /**
     * `handleSubmit`: nothing happens for a blank input or while loading;
     * otherwise the input is cleared, the user's message is shown at once,
     * the request is built from the earlier messages, the stream is folded,
     * and loading ends. On failure the user's message is removed again and the
     * error block is shown.
     */
    method HandleSubmit(fr: Framing, rt: Runtime, chatId: string, optimisticId: string, assistantId: string,
                        response: HttpOutcome, store: Option<Thrown>)
      returns (request: Option<RequestBody>)
      modifies this
      ensures AcceptedInput(old(input), old(isLoading)).None? ==>
        request.None? && messages == old(messages) && input == old(input)
        && streamedResponse == old(streamedResponse) && currentTool == old(currentTool) && isLoading == old(isLoading)
      ensures AcceptedInput(old(input), old(isLoading)).Some? ==>
        var trimmed := AcceptedInput(old(input), old(isLoading)).value;
        var v0 := View("", "", None, old(messages) + [UiMessage(optimisticId, "user", Text(trimmed))]);
        var r := RunSubmission(fr, rt, old(currentTool), store, assistantId, response, v0);
        && request == Some(BuildRequest(old(messages), trimmed, chatId))
        && input == "" && !isLoading
        && (r.Abort? ==> messages == WithoutId(r.view.messages, optimisticId) && streamedResponse == ErrorBlock(rt, r.error)
                         && currentTool == r.view.tool)
        && (!r.Abort? ==> messages == r.view.messages && streamedResponse == r.view.shown && currentTool == r.view.tool)
    {
      var accepted := AcceptedInput(input, isLoading);
      if accepted.None? {
        return None;
      }
      var trimmed := accepted.value;
      var captured := currentTool;
      input := "";
      streamedResponse := "";
      currentTool := None;
      isLoading := true;
      var history := messages;
      messages := messages + [UiMessage(optimisticId, "user", Text(trimmed))];
      var fullResponse := "";
      request := Some(BuildRequest(history, trimmed, chatId));

      var v := View(fullResponse, streamedResponse, currentTool, messages);
      var r: StepResult;
      match response {
        case Rejected(text) => r := Abort(v, text);
        case NoBody => r := Abort(v, NoBodyText);
        case FetchFailed(th) => r := Abort(v, ErrorText(th, UnknownErrorText));
        case Streamed(chunks, failure) =>
          var parser := new SSEParser(fr, rt);
          r := ProcessStream(parser, captured, store, assistantId, v, chunks, failure);
      }
      if r.Abort? {
        messages := WithoutId(r.view.messages, optimisticId);
        streamedResponse := ErrorBlock(rt, r.error);
      } else {
        messages := r.view.messages;
        streamedResponse := r.view.shown;
      }
      currentTool := r.view.tool;
      isLoading := false;
    }
  }

  /** `processStream` with the chunk handler: reads chunks until the end or a throw. */
  method ProcessStream(parser: SSEParser, captured: Option<ToolInfo>, store: Option<Thrown>, assistantId: string,
                       v: View, chunks: seq<string>, failure: Option<Thrown>) returns (r: StepResult)
    modifies parser
    ensures r == ReadFailure(FoldStream(parser.framing, parser.rt, captured, store, assistantId, old(parser.buffer), v, chunks), failure)
  {
    var view := v;
    var i := 0;
    while i < |chunks|
      invariant 0 <= i <= |chunks|
      invariant FoldStream(parser.framing, parser.rt, captured, store, assistantId, old(parser.buffer), v, chunks)
        == FoldStream(parser.framing, parser.rt, captured, store, assistantId, parser.buffer, view, chunks[i..])
    {
      ghost var b0 := parser.buffer;
      var ms := parser.Parse(chunks[i]);
      assert ParseStep(parser.framing, parser.rt, b0, chunks[i]) == (ms, parser.buffer);
      FoldStreamUnfold(parser.framing, parser.rt, captured, store, assistantId, b0, view, chunks[i..]);
      assert chunks[i..][0] == chunks[i] && chunks[i..][1..] == chunks[i + 1..];
      var step := ProcessChunk(parser.rt, captured, store, assistantId, view, ms);
      if step.Abort? {
        return step;
      }
      view := step.view;
      i := i + 1;
    }
    if failure.Some? {
      r := Abort(view, ErrorText(failure.value, UnknownErrorText));
    } else {
      r := Next(view);
    }
  }

  lemma FoldStreamUnfold(fr: Framing, rt: Runtime, captured: Option<ToolInfo>, store: Option<Thrown>, aid: string,
                         buffer: string, v: View, chunks: seq<string>)
    requires chunks != []
    ensures var step := ParseStep(fr, rt, buffer, chunks[0]);
      var s := FoldMessages(rt, captured, store, aid, v, step.0);
      FoldStream(fr, rt, captured, store, aid, buffer, v, chunks)
        == if s.Abort? then s else FoldStream(fr, rt, captured, store, aid, step.1, s.view, chunks[1..])
  {
  }

  /** The chunk handler's loop over the parsed messages. */
  method ProcessChunk(rt: Runtime, captured: Option<ToolInfo>, store: Option<Thrown>, assistantId: string,
                      v: View, ms: seq<Json>) returns (r: StepResult)
    ensures r == FoldMessages(rt, captured, store, assistantId, v, ms)
  {
    var view := v;
    var i := 0;
    while i < |ms|
      invariant 0 <= i <= |ms|
      invariant FoldMessages(rt, captured, store, assistantId, v, ms) == FoldMessages(rt, captured, store, assistantId, view, ms[i..])
    {
      assert ms[i..][0] == ms[i] && ms[i..][1..] == ms[i + 1..];
      var step := Step(rt, captured, store, assistantId, view, ms[i]);
      if !step.Next? {
        return step;
      }
      view := step.view;
      i := i + 1;
    }
    r := Next(view);
  }
}
