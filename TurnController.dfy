/**
 * The streaming endpoint of one chat turn (`POST` and `startStream`): the
 * authentication gate, the conversion of the history to agent messages, the
 * mapping of graph events to frames and the discipline of the stream: the
 * `connected` frame first, a fallback `done` after the events, a single
 * `error` on failure, and one attempt to close as the last action.
 */
module TurnController {
  import opened JsValues
  import opened Protocol
  import opened SseParser
  import AgentGraph

  // ---------------------------------------------------------------------------
  // The request

  /** A message of the client's history: its role and text. */
  datatype ChatMessage = ChatMessage(role: string, content: string)

  /** The decoded request body. */
  datatype ChatRequest = ChatRequest(history: seq<ChatMessage>, newMessage: string, chatId: string)

  function ToAgentMessage(m: ChatMessage): AgentGraph.Message {
    AgentGraph.Message(if m.role == "user" then AgentGraph.Human else AgentGraph.AI, Text(m.content), [])
  }

  /** The history as agent messages, followed by the new question. */
  function ToLangChain(history: seq<ChatMessage>, newMessage: string): (r: seq<AgentGraph.Message>)
    ensures |r| == |history| + 1
  {
    seq(|history|, i requires 0 <= i < |history| => ToAgentMessage(history[i]))
      + [AgentGraph.Message(AgentGraph.Human, Text(newMessage), [])]
  }

  /**
   * The conversion keeps the order and the texts; a "user" message becomes a
   * human message and every other role an assistant message; the new
   * question comes last, as a human message.
   */
  lemma ConversionSpec(history: seq<ChatMessage>, newMessage: string)
    ensures var r := ToLangChain(history, newMessage);
      && r[|history|] == AgentGraph.Message(AgentGraph.Human, Text(newMessage), [])
      && (forall i :: 0 <= i < |history| ==> r[i].content == Text(history[i].content) && r[i].toolCalls == [])
      && (forall i :: 0 <= i < |history| ==> (r[i].kind == AgentGraph.Human <==> history[i].role == "user"))
      && (forall i :: 0 <= i < |history| ==> (r[i].kind == AgentGraph.AI <==> history[i].role != "user"))
  {
  }

  // ---------------------------------------------------------------------------
  // Graph events

  /** The events of the graph's event stream that the loop distinguishes. */
  datatype GraphEvent =
    | ChatModelStream(chunk: Option<Content>)   // `on_chat_model_stream`; None for a falsy chunk
    | ChatModelEnd                              // `on_chat_model_end`
    | ToolStarted(name: string, input: Json)    // `on_tool_start`
    | ToolEnded(output: Json)                   // `on_tool_end`
    | OtherEvent

  /**
   * `chunk.content.at(0)?.["text"]` when truthy: only the first part of a
   * multi-part content can carry it; `at(0)` of a string content is a
   * one-character string, which has no `text` member.
   */
  function ChunkText(c: Content): (r: Option<string>)
    ensures r.Some? <==> c.Parts? && |c.parts| > 0 && c.parts[0].text.Some? && c.parts[0].text.value != ""
    ensures r.Some? ==> r.value == c.parts[0].text.value
  {
    if c.Parts? && |c.parts| > 0 && c.parts[0].text.Some? && c.parts[0].text.value != "" then c.parts[0].text
    else None
  }

  /** `toolMessage.lc_kwargs.name || "unknown"` for the tool message built from the output. */
  function ToolEndName(output: Json): (r: Json)
    ensures Truthy(r)
    ensures Field(output, "name").Some? && Truthy(Field(output, "name").value) ==> r == Field(output, "name").value
    ensures Field(output, "name").None? || !Truthy(Field(output, "name").value) ==> r == JStr("unknown")
  {
    var name := Field(output, "name");
    if name.Some? && Truthy(name.value) then name.value else JStr("unknown")
  }

  /** The message an event is sent as, if any. */
  function EventMessage(e: GraphEvent): Option<Json> {
    match e
    case ChatModelStream(chunk) =>
      if chunk.Some? && ChunkText(chunk.value).Some? then Some(TokenMessage(ChunkText(chunk.value).value)) else None
    case ChatModelEnd => Some(DoneMessage())
    case ToolStarted(name, input) => Some(ToolStartMessage(JStr(if name == "" then "unknown" else name), input))
    case ToolEnded(output) => Some(ToolEndMessage(ToolEndName(output), output))
    case OtherEvent => None
  }

  /** The messages the loop writes for a sequence of events, in order. */
  function EventMessages(es: seq<GraphEvent>): (r: seq<Json>)
    ensures |r| <= |es|
    decreases |es|
  {
    if es == [] then []
    else
      var last := EventMessage(es[|es| - 1]);
      EventMessages(es[..|es| - 1]) + (if last.Some? then [last.value] else [])
  }

  predicate HasType(m: Json, t: string) {
    Field(m, "type") == Some(JStr(t))
  }

  function CountType(ms: seq<Json>, t: string): nat
    decreases |ms|
  {
    if ms == [] then 0 else CountType(ms[..|ms| - 1], t) + (if HasType(ms[|ms| - 1], t) then 1 else 0)
  }

  function CountEnds(es: seq<GraphEvent>): nat
    decreases |es|
  {
    if es == [] then 0 else CountEnds(es[..|es| - 1]) + (if es[|es| - 1].ChatModelEnd? then 1 else 0)
  }

  /**
   * The event mapping: each model end gives one `done` message, so there are
   * as many `done` messages as model ends; no event gives a `connected` or an
   * `error` message; a token message carries the chunk's text.
   */
  lemma {:induction false} EventMessagesSpec(es: seq<GraphEvent>)
    ensures var ms := EventMessages(es);
      && CountType(ms, TypeDone) == CountEnds(es)
      && CountType(ms, TypeError) == 0
      && CountType(ms, TypeConnected) == 0
      && (forall i :: 0 <= i < |ms| ==> HasMessageType(ms[i]))
    decreases |es|
  {
    if es != [] {
      var init := es[..|es| - 1];
      var e := es[|es| - 1];
      EventMessagesSpec(init);
      EventMessageType(e);
      var prev := EventMessages(init);
      var last := EventMessage(e);
      var ms := EventMessages(es);
      if last.Some? {
        assert ms == prev + [last.value];
        assert ms[..|ms| - 1] == prev;
      } else {
        assert ms == prev;
      }
    }
  }

  /** The type of the message an event is sent as. */
  lemma EventMessageType(e: GraphEvent)
    ensures EventMessage(e).Some? ==> HasMessageType(EventMessage(e).value)
    ensures EventMessage(e).Some? ==> !HasType(EventMessage(e).value, TypeError) && !HasType(EventMessage(e).value, TypeConnected)
    ensures EventMessage(e).Some? ==> (HasType(EventMessage(e).value, TypeDone) <==> e.ChatModelEnd?)
    ensures e.ChatModelEnd? ==> EventMessage(e).Some?
  {
  }

  /** The single-event mapping, case by case. */
  lemma EventMessageCases(e: GraphEvent)
    ensures e.ChatModelEnd? ==> EventMessage(e) == Some(DoneMessage())
    ensures e.OtherEvent? ==> EventMessage(e) == None
    ensures e.ChatModelStream? ==>
      (EventMessage(e).Some? <==> e.chunk.Some? && ChunkText(e.chunk.value).Some?)
    ensures e.ChatModelStream? && EventMessage(e).Some? ==>
      Field(EventMessage(e).value, "token") == Some(JStr(ChunkText(e.chunk.value).value))
    ensures e.ToolStarted? ==>
      (EventMessage(e).Some? && Field(EventMessage(e).value, "tool") == Some(JStr(if e.name == "" then "unknown" else e.name)))
    ensures e.ToolEnded? ==>
      (EventMessage(e).Some? && Field(EventMessage(e).value, "output") == Some(e.output)
       && Truthy(Field(EventMessage(e).value, "tool").value))
  {
  }

  // ---------------------------------------------------------------------------
  // One turn

  const StreamFailedText: string := "Stream processing failed"
  const UnknownErrorText: string := "Unknown error in chat stream"

  /**
   * The outcomes of the opaque steps of a turn: the persistence of the user
   * message, the submission to the graph, the events the graph yields and
   * whether iterating them failed afterwards, and whether closing succeeded.
   * None means the step succeeded.
   */
  datatype Outcomes = Outcomes(
    persist: Option<Thrown>,
    submit: Option<Thrown>,
    events: seq<GraphEvent>,
    iteration: Option<Thrown>,
    closeOk: bool)

  /** What the stream records, in order. */
  datatype Action =
    | Wrote(message: Json)
    | PersistAttempted(chatId: string, content: string)
    | SubmitAttempted(messages: seq<AgentGraph.Message>)
    | CloseAttempted

  function WroteAll(ms: seq<Json>): (r: seq<Action>)
    ensures |r| == |ms|
    ensures forall i :: 0 <= i < |ms| ==> r[i] == Wrote(ms[i])
  {
    seq(|ms|, i requires 0 <= i < |ms| => Wrote(ms[i]))
  }

  /** What follows the event loop: the fallback `done`, or the error of a failed iteration. */
  function FinalMessage(o: Outcomes): (r: Json)
    ensures o.iteration.None? ==> HasType(r, TypeDone)
    ensures o.iteration.Some? ==> HasType(r, TypeError) && !HasType(r, TypeDone)
  {
    if o.iteration.Some? then ErrorMessage(ErrorText(o.iteration.value, StreamFailedText)) else DoneMessage()
  }

  /** The part of a turn that follows a successful persistence. */
  function AfterPersist(req: ChatRequest, o: Outcomes): seq<Action> {
    [SubmitAttempted(ToLangChain(req.history, req.newMessage))]
      + (if o.submit.Some? then [Wrote(ErrorMessage(ErrorText(o.submit.value, StreamFailedText)))]
         else WroteAll(EventMessages(o.events)) + [Wrote(FinalMessage(o))])
  }

  /** Everything `startStream` does, in order. */
  function TurnActions(req: ChatRequest, o: Outcomes): seq<Action> {
    [Wrote(ConnectedMessage()), PersistAttempted(req.chatId, req.newMessage)]
      + (if o.persist.Some? then [Wrote(ErrorMessage(ErrorText(o.persist.value, UnknownErrorText)))]
         else AfterPersist(req, o))
      + [CloseAttempted]
  }

  /** The messages written, in order. */
  function MessagesOf(actions: seq<Action>): seq<Json>
    decreases |actions|
  {
    if actions == [] then []
    else (if actions[0].Wrote? then [actions[0].message] else []) + MessagesOf(actions[1..])
  }

  lemma {:induction false} MessagesOfAppend(a: seq<Action>, b: seq<Action>)
    ensures MessagesOf(a + b) == MessagesOf(a) + MessagesOf(b)
    decreases |a|
  {
    if a == [] {
      assert a + b == b;
    } else {
      assert (a + b)[0] == a[0];
      assert (a + b)[1..] == a[1..] + b;
      MessagesOfAppend(a[1..], b);
    }
  }

  lemma {:induction false} MessagesOfWroteAll(ms: seq<Json>)
    ensures MessagesOf(WroteAll(ms)) == ms
    decreases |ms|
  {
    if ms != [] {
      assert WroteAll(ms)[1..] == WroteAll(ms[1..]);
      MessagesOfWroteAll(ms[1..]);
    }
  }

  /** The messages of a turn, as a function of its outcomes. */
  function TurnMessages(o: Outcomes): seq<Json> {
    [ConnectedMessage()]
      + (if o.persist.Some? then [ErrorMessage(ErrorText(o.persist.value, UnknownErrorText))]
         else if o.submit.Some? then [ErrorMessage(ErrorText(o.submit.value, StreamFailedText))]
         else EventMessages(o.events) + [FinalMessage(o)])
  }

  lemma TurnWritesTurnMessages(req: ChatRequest, o: Outcomes)
    ensures MessagesOf(TurnActions(req, o)) == TurnMessages(o)
  {
    var head := [Wrote(ConnectedMessage()), PersistAttempted(req.chatId, req.newMessage)];
    var tail := [CloseAttempted];
    var mid := if o.persist.Some? then [Wrote(ErrorMessage(ErrorText(o.persist.value, UnknownErrorText)))] else AfterPersist(req, o);
    assert TurnActions(req, o) == head + mid + tail;
    MessagesOfAppend(head + mid, tail);
    MessagesOfAppend(head, mid);
    assert MessagesOf(head) == [ConnectedMessage()] by {
      assert head[1..][1..] == [];
    }
    if o.persist.None? {
      AfterPersistMessages(req, o);
    }
  }

  /** The messages written after a successful persistence. */
  lemma AfterPersistMessages(req: ChatRequest, o: Outcomes)
    ensures MessagesOf(AfterPersist(req, o)) ==
      if o.submit.Some? then [ErrorMessage(ErrorText(o.submit.value, StreamFailedText))]
      else EventMessages(o.events) + [FinalMessage(o)]
  {
    var sub := [SubmitAttempted(ToLangChain(req.history, req.newMessage))];
    var rest := AfterPersist(req, o)[1..];
    assert AfterPersist(req, o) == sub + rest;
    MessagesOfAppend(sub, rest);
    if o.submit.None? {
      var evs := WroteAll(EventMessages(o.events));
      var fin := [Wrote(FinalMessage(o))];
      assert rest == evs + fin;
      MessagesOfAppend(evs, fin);
      MessagesOfWroteAll(EventMessages(o.events));
    }
  }

  /** The `connected` frame is the first action, before the user message is persisted. */
  lemma ConnectedFirst(req: ChatRequest, o: Outcomes)
    ensures TurnActions(req, o)[0] == Wrote(ConnectedMessage())
    ensures TurnActions(req, o)[1] == PersistAttempted(req.chatId, req.newMessage)
  {
  }

  /** Closing is attempted exactly once, as the last action. */
  lemma CloseOnceLast(req: ChatRequest, o: Outcomes)
    ensures var a := TurnActions(req, o);
      a[|a| - 1] == CloseAttempted && forall i :: 0 <= i < |a| - 1 ==> a[i] != CloseAttempted
  {
    var a := TurnActions(req, o);
    var mid := if o.persist.Some? then [Wrote(ErrorMessage(ErrorText(o.persist.value, UnknownErrorText)))] else AfterPersist(req, o);
    assert a[..|a| - 1] == [Wrote(ConnectedMessage()), PersistAttempted(req.chatId, req.newMessage)] + mid;
    forall i | 0 <= i < |a| - 1 ensures a[i] != CloseAttempted {
      assert a[i] == a[..|a| - 1][i];
    }
  }

  /**
   * The error discipline: a turn writes an `error` message exactly when a step
   * failed, then only one, as the last message, with the thrown message or
   * the fallback text of the failing step; a turn without failure ends with
   * the fallback `done` after all the event messages.
   */
  lemma ErrorDiscipline(o: Outcomes)
    ensures var ms := TurnMessages(o);
      && ms[0] == ConnectedMessage()
      && (o.persist.None? && o.submit.None? && o.iteration.None? ==>
            ms == [ConnectedMessage()] + EventMessages(o.events) + [DoneMessage()] && CountType(ms, TypeError) == 0)
      && (o.persist.Some? ==> ms == [ConnectedMessage(), ErrorMessage(ErrorText(o.persist.value, UnknownErrorText))])
      && (o.persist.None? && o.submit.Some? ==> ms == [ConnectedMessage(), ErrorMessage(ErrorText(o.submit.value, StreamFailedText))])
      && (o.persist.None? && o.submit.None? && o.iteration.Some? ==>
            ms == [ConnectedMessage()] + EventMessages(o.events) + [ErrorMessage(ErrorText(o.iteration.value, StreamFailedText))])
      && ((o.persist.Some? || o.submit.Some? || o.iteration.Some?) <==> CountType(ms, TypeError) == 1)
      && (CountType(ms, TypeError) == 1 ==> HasType(ms[|ms| - 1], TypeError))
  {
    var ms := TurnMessages(o);
    var evs := EventMessages(o.events);
    EventMessagesSpec(o.events);
    assert CountType([ConnectedMessage()], TypeError) == 0 by {
      assert [ConnectedMessage()][..0] == [];
    }
    CountTypeAppend([ConnectedMessage()], evs, TypeError);
    assert CountType([ConnectedMessage()] + evs, TypeError) == 0;
    var fin := ms[|ms| - 1];
    if o.persist.Some? || o.submit.Some? {
      assert ms[..|ms| - 1] == [ConnectedMessage()];
    } else {
      assert ms[..|ms| - 1] == [ConnectedMessage()] + evs;
    }
  }

  lemma {:induction false} CountTypeAppend(a: seq<Json>, b: seq<Json>, t: string)
    ensures CountType(a + b, t) == CountType(a, t) + CountType(b, t)
    decreases |b|
  {
    if b == [] {
      assert a + b == a;
    } else {
      var b' := b[..|b| - 1];
      assert (a + b)[..|a + b| - 1] == a + b';
      assert (a + b)[|a + b| - 1] == b[|b| - 1];
      CountTypeAppend(a, b', t);
    }
  }

  /**
   * End to end: when every message of the turn survives its encoding, the
   * client's parser, fed the stream's text in any chunking, returns exactly
   * the turn's messages in order.
   */
  lemma ClientReadsTurn(fr: Framing, rt: Runtime, o: Outcomes, chunks: seq<string>)
    requires WellFormed(fr)
    requires forall i :: 0 <= i < |TurnMessages(o)| ==> Transmissible(fr, rt, TurnMessages(o)[i])
    requires Concat(chunks) == Wire(fr, rt, TurnMessages(o))
    ensures ParseChunks(fr, rt, "", chunks).0 == TurnMessages(o)
  {
    ReassembleAnyChunking(fr, rt, chunks, TurnMessages(o));
  }

  // ---------------------------------------------------------------------------
  // The stream

  /** The writer of one turn's event stream. */
  class TurnStream {
    const framing: Framing
    const rt: Runtime
    var trace: seq<Action>
    var closed: bool

    constructor (framing: Framing, rt: Runtime)
      ensures this.framing == framing && this.rt == rt
      ensures trace == [] && !closed
    {
      this.framing := framing;
      this.rt := rt;
      trace := [];
      closed := false;
    }

    /** The text of the frames written so far. */
    function Written(): string
      reads this
    {
      Wire(framing, rt, MessagesOf(trace))
    }

    /** `sendSSEMessage`: one frame, `prefix + JSON + delimiter`. */
    method Send(m: Json)
      modifies this
      ensures trace == old(trace) + [Wrote(m)] && closed == old(closed)
    {
      trace := trace + [Wrote(m)];
    }

    /** The `for await` loop: each event's message, if any, is sent in order. */
    method SendEvents(events: seq<GraphEvent>)
      modifies this
      ensures trace == old(trace) + WroteAll(EventMessages(events))
      ensures closed == old(closed)
    {
      ghost var start := trace;
      var i := 0;
      while i < |events|
        invariant 0 <= i <= |events|
        invariant trace == start + WroteAll(EventMessages(events[..i]))
        invariant closed == old(closed)
      {
        ghost var done := EventMessages(events[..i]);
        assert events[..i + 1][..i] == events[..i];
        var m := EventMessage(events[i]);
        if m.Some? {
          Send(m.value);
          assert WroteAll(done + [m.value]) == WroteAll(done) + [Wrote(m.value)];
        }
        i := i + 1;
      }
      assert events[..|events|] == events;
    }

    /** `startStream`, run to completion with the given outcomes. */
    method StartStream(req: ChatRequest, o: Outcomes)
      modifies this
      ensures trace == old(trace) + TurnActions(req, o)
      ensures closed == o.closeOk
    {
      Send(ConnectedMessage());
      trace := trace + [PersistAttempted(req.chatId, req.newMessage)];
      if o.persist.Some? {
        Send(ErrorMessage(ErrorText(o.persist.value, UnknownErrorText)));
      } else {
        RunGraph(req, o);
      }
      trace := trace + [CloseAttempted];
      closed := o.closeOk;
    }

    /** The inner `try`: the conversion, the submission and the event loop. */
    method RunGraph(req: ChatRequest, o: Outcomes)
      modifies this
      ensures trace == old(trace) + AfterPersist(req, o)
      ensures closed == old(closed)
    {
      var langChainMessages := ToLangChain(req.history, req.newMessage);
      trace := trace + [SubmitAttempted(langChainMessages)];
      if o.submit.Some? {
        Send(ErrorMessage(ErrorText(o.submit.value, StreamFailedText)));
      } else {
        SendEvents(o.events);
        if o.iteration.Some? {
          Send(ErrorMessage(ErrorText(o.iteration.value, StreamFailedText)));
        } else {
          Send(DoneMessage());
        }
      }
    }
  }

  // ---------------------------------------------------------------------------
  // The endpoint

  const Unauthorized: int := 401
  const ServerError: int := 500
  const Streaming: int := 200

  const RequestFailedBody: Json := JObj(map["error" := JStr("Failed to process chat request")])

  /** What `auth()` gave: the signed-in user id, if any, or a throw. */
  datatype AuthResult = Authenticated(userId: Option<string>) | AuthFailed(thrown: Thrown)

  /** `userId` is truthy: present and not empty. */
  predicate SignedIn(auth: AuthResult) {
    auth.Authenticated? && auth.userId.Some? && auth.userId.value != ""
  }

  /**
   * `POST`: without a user id the answer is 401 and no stream exists; a body
   * that cannot be decoded gives 500; otherwise a fresh stream is returned
   * after the turn has run on it.
   */
  method Post(fr: Framing, rt: Runtime, auth: AuthResult, body: Option<ChatRequest>, o: Outcomes)
    returns (status: int, stream: TurnStream?)
    ensures auth.AuthFailed? ==> status == ServerError && stream == null
    ensures auth.Authenticated? && !SignedIn(auth) ==> status == Unauthorized && stream == null
    ensures SignedIn(auth) && body.None? ==> status == ServerError && stream == null
    ensures SignedIn(auth) && body.Some? ==>
      && status == Streaming && stream != null && fresh(stream)
      && stream.framing == fr && stream.rt == rt
      && stream.trace == TurnActions(body.value, o) && stream.closed == o.closeOk
      && stream.Written() == Wire(fr, rt, TurnMessages(o))
  {
    if auth.AuthFailed? {
      return ServerError, null;
    }
    if !SignedIn(auth) {
      return Unauthorized, null;
    }
    if body.None? {
      return ServerError, null;
    }
    stream := new TurnStream(fr, rt);
    stream.StartStream(body.value, o);
    TurnWritesTurnMessages(body.value, o);
    status := Streaming;
  }
}
