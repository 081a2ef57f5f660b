/**
 * The agent execution graph: the routing decision after a model step, the
 * cache-hint annotator, the normalisation of the prompt, the fix-ups applied
 * to a model reply, the rate-limit policy, and the wiring
 * START -> agent, agent -> shouldContinue, tools -> agent.
 */
module AgentGraph {
  import opened JsValues
  import opened Strings

  /** The message classes the code distinguishes (`HumanMessage`, `AIMessage`, ...). */
  datatype Kind = Human | AI | System | Tool

  datatype ToolCall = ToolCall(id: string, name: string, args: Json)

  /** A message as a value. */
  datatype Message = Message(kind: Kind, content: Content, toolCalls: seq<ToolCall>)

  /**
   * A LangChain message object. Its content and tool calls are rewritten in
   * place by the annotator and the fix-ups; its class never changes.
   */
  class BaseMessage {
    const kind: Kind
    var content: Content
    var toolCalls: seq<ToolCall>

    constructor (kind: Kind, content: Content, toolCalls: seq<ToolCall>)
      ensures this.kind == kind && this.content == content && this.toolCalls == toolCalls
    {
      this.kind := kind;
      this.content := content;
      this.toolCalls := toolCalls;
    }

    function Value(): Message
      reads this
    {
      Message(kind, content, toolCalls)
    }
  }

  function Values(ms: seq<BaseMessage>): (r: seq<Message>)
    reads set m | m in ms
    ensures |r| == |ms|
    ensures forall i :: 0 <= i < |ms| ==> r[i] == ms[i].Value()
  {
    seq(|ms|, i reads set m | m in ms requires 0 <= i < |ms| => ms[i].Value())
  }

  /** The classes of message objects; a class is fixed at construction, so this reads nothing. */
  function KindsOf(ms: seq<BaseMessage>): (r: seq<Kind>)
    ensures |r| == |ms|
    ensures forall i :: 0 <= i < |ms| ==> r[i] == ms[i].kind
  {
    seq(|ms|, i requires 0 <= i < |ms| => ms[i].kind)
  }

  /** The classes of message values. */
  function Kinds(ms: seq<Message>): (r: seq<Kind>)
    ensures |r| == |ms|
    ensures forall i :: 0 <= i < |ms| ==> r[i] == ms[i].kind
  {
    seq(|ms|, i requires 0 <= i < |ms| => ms[i].kind)
  }

  predicate Distinct(ms: seq<BaseMessage>) {
    forall i, j :: 0 <= i < j < |ms| ==> ms[i] != ms[j]
  }

  // ---------------------------------------------------------------------------
  // Routing after a model step

  datatype Route = ToTools | ToAgent | ToEnd

  /**
   * `shouldContinue`: to the tools when the last message requests tool calls,
   * back to the agent when it is a tool message with content, else to the end.
   * The graph calls it only after the agent has appended its reply.
   */
  function ShouldContinue(messages: seq<Message>): (r: Route)
    requires |messages| > 0
    ensures var last := messages[|messages| - 1];
      && (r == ToTools <==> |last.toolCalls| > 0)
      && (r == ToAgent <==> |last.toolCalls| == 0 && ContentTruthy(last.content) && last.kind == Tool)
      && (r == ToEnd <==> |last.toolCalls| == 0 && !(ContentTruthy(last.content) && last.kind == Tool))
  {
    var last := messages[|messages| - 1];
    if |last.toolCalls| > 0 then ToTools
    else if ContentTruthy(last.content) && last.kind == Tool then ToAgent
    else ToEnd
  }

  // ---------------------------------------------------------------------------
  // Cache hints

  /** `addCache`: the content becomes a single text part with the ephemeral hint. */
  function Wrap(c: Content): (r: Content)
    ensures r.Parts? && |r.parts| == 1
    ensures r.parts[0] == Part("text", if c.Text? then Some(c.text) else None, true)
  {
    Parts([Part("text", if c.Text? then Some(c.text) else None, true)])
  }

  /** The number of human messages. */
  function HumanCount(ks: seq<Kind>): nat
    decreases |ks|
  {
    if ks == [] then 0 else (if ks[0] == Human then 1 else 0) + HumanCount(ks[1..])
  }

  lemma {:induction false} HumanCountAppend(a: seq<Kind>, b: seq<Kind>)
    ensures HumanCount(a + b) == HumanCount(a) + HumanCount(b)
    decreases |a|
  {
    if a == [] {
      assert a + b == b;
    } else {
      assert (a + b)[0] == a[0];
      assert (a + b)[1..] == a[1..] + b;
      HumanCountAppend(a[1..], b);
    }
  }

  lemma HumanCountSplit(ks: seq<Kind>, i: nat, j: nat)
    requires i <= j <= |ks|
    ensures HumanCount(ks[i..]) == HumanCount(ks[i..j]) + HumanCount(ks[j..])
  {
    assert ks[i..] == ks[i..j] + ks[j..];
    HumanCountAppend(ks[i..j], ks[j..]);
  }

  /** Scanning from the end (the last message included), `j` is where the second human message is met. */
  predicate IsSecondHumanFromEnd(ks: seq<Kind>, j: int) {
    0 <= j < |ks| && ks[j] == Human && HumanCount(ks[j + 1..]) == 1
  }

  /** The messages the annotator marks: the last one and the second human from the end. */
  predicate Marked(ks: seq<Kind>, i: int) {
    i == |ks| - 1 || IsSecondHumanFromEnd(ks, i)
  }

  lemma HumanCountAt(ks: seq<Kind>, k: int)
    requires 0 <= k < |ks|
    ensures HumanCount(ks[k..]) == (if ks[k] == Human then 1 else 0) + HumanCount(ks[k + 1..])
  {
    assert ks[k..][1..] == ks[k + 1..];
  }

  /** A human message at `k` after `j` is one more human after `j`. */
  lemma HumansAfter(ks: seq<Kind>, j: int, k: int)
    requires 0 <= j < |ks| && 0 <= k < |ks| && ks[k] == Human
    ensures j < k ==> HumanCount(ks[j + 1..]) >= 1 + HumanCount(ks[k + 1..])
  {
    if j < k {
      HumanCountAt(ks, k);
      HumanCountSplit(ks, j + 1, k);
    }
  }

  /** There is at most one second human from the end. */
  lemma SecondHumanUnique(ks: seq<Kind>, j: int, k: int)
    requires IsSecondHumanFromEnd(ks, j) && IsSecondHumanFromEnd(ks, k)
    ensures j == k
  {
    HumansAfter(ks, j, k);
    HumansAfter(ks, k, j);
  }

  /** It exists exactly when there are at least two human messages. */
  lemma SecondHumanExists(ks: seq<Kind>)
    ensures (exists j :: IsSecondHumanFromEnd(ks, j)) <==> HumanCount(ks) >= 2
  {
    if HumanCount(ks) >= 2 {
      var j := FindSecondHuman(ks, |ks| - 1, 0);
      assert IsSecondHumanFromEnd(ks, j);
    } else {
      forall j | 0 <= j < |ks| && ks[j] == Human ensures HumanCount(ks[j + 1..]) != 1 {
        assert ks[0..] == ks;
        HumanCountAt(ks, j);
        HumanCountSplit(ks, 0, j);
      }
    }
  }

  lemma {:induction false} FindSecondHuman(ks: seq<Kind>, i: int, count: nat) returns (j: int)
    requires -1 <= i < |ks|
    requires count == HumanCount(ks[i + 1..]) && count < 2
    requires HumanCount(ks) >= 2
    ensures IsSecondHumanFromEnd(ks, j)
    decreases i + 1
  {
    if i < 0 {
      assert false;
    } else {
      HumanCountAt(ks, i);
      if ks[i] == Human && count == 1 {
        j := i;
      } else {
        j := FindSecondHuman(ks, i - 1, if ks[i] == Human then count + 1 else count);
      }
    }
  }

  /** Given the second human from the end, exactly it and the last message are marked. */
  lemma MarkedWithSecond(ks: seq<Kind>, s: int)
    requires IsSecondHumanFromEnd(ks, s)
    ensures s != |ks| - 1
    ensures forall k :: Marked(ks, k) <==> k == |ks| - 1 || k == s
  {
    assert ks[|ks|..] == [];
    forall k ensures Marked(ks, k) <==> k == |ks| - 1 || k == s {
      if IsSecondHumanFromEnd(ks, k) { SecondHumanUnique(ks, k, s); }
    }
  }

  /** With fewer than two human messages only the last message is marked. */
  lemma MarkedOnlyLast(ks: seq<Kind>)
    requires HumanCount(ks) < 2
    ensures forall k :: Marked(ks, k) <==> k == |ks| - 1
  {
    SecondHumanExists(ks);
  }

  /** The annotation as a function of the message values. */
  function CacheAnnotated(ms: seq<Message>): (r: seq<Message>)
    ensures |r| == |ms|
  {
    var ks := Kinds(ms);
    seq(|ms|, i requires 0 <= i < |ms| =>
      if Marked(ks, i) then ms[i].(content := Wrap(ms[i].content)) else ms[i])
  }

  /**
   * With at least two human messages, exactly the last message and the second
   * human from the end carry the hint; with fewer, only the last; no other
   * message changes and the kinds and tool calls never do.
   */
  lemma AnnotationMarksExactly(ms: seq<Message>)
    requires |ms| > 0
    ensures var r := CacheAnnotated(ms);
      && Kinds(r) == Kinds(ms)
      && r[|ms| - 1].content == Wrap(ms[|ms| - 1].content)
      && (HumanCount(Kinds(ms)) < 2 ==> forall i :: 0 <= i < |ms| - 1 ==> r[i] == ms[i])
      && (HumanCount(Kinds(ms)) >= 2 ==>
            exists j :: (0 <= j < |ms| - 1 && IsSecondHumanFromEnd(Kinds(ms), j) && r[j].content == Wrap(ms[j].content)
              && forall i :: 0 <= i < |ms| - 1 && i != j ==> r[i] == ms[i]))
      && (forall i :: 0 <= i < |ms| ==> r[i].toolCalls == ms[i].toolCalls)
  {
    var ks := Kinds(ms);
    var r := CacheAnnotated(ms);
    assert Kinds(r) == ks;
    SecondHumanExists(ks);
    if HumanCount(ks) >= 2 {
      var j :| IsSecondHumanFromEnd(ks, j);
      MarkedWithSecond(ks, j);
    } else {
      MarkedOnlyLast(ks);
    }
  }

  /**
   * `addCachingHeaders`: returns the same message objects in the same order
   * (the copy is shallow), after wrapping, in place, the content of the last
   * message and of the second human message from the end.
   */
  method AddCachingHeaders(messages: seq<BaseMessage>) returns (cached: seq<BaseMessage>)
    requires Distinct(messages)
    modifies set m | m in messages
    ensures cached == messages
    ensures forall i :: 0 <= i < |messages| ==>
      messages[i].content == (if Marked(KindsOf(messages), i) then Wrap(old(messages[i].content)) else old(messages[i].content))
    ensures forall i :: 0 <= i < |messages| ==> messages[i].toolCalls == old(messages[i].toolCalls)
  {
    if |messages| == 0 {
      return messages;
    }
    cached := messages;
    ghost var ks := KindsOf(messages);
    var n := |cached|;
    var last := cached[n - 1];
    last.content := Wrap(last.content);

    var humanCount := 0;
    var i := n - 1;
    while i >= 0
      invariant -1 <= i < n
      invariant humanCount == HumanCount(ks[i + 1..]) && humanCount < 2
      invariant forall k :: 0 <= k < n ==>
        messages[k].content == (if k == n - 1 then Wrap(old(messages[k].content)) else old(messages[k].content))
      invariant forall k :: 0 <= k < n ==> messages[k].toolCalls == old(messages[k].toolCalls)
      decreases i + 1
    {
      HumanCountAt(ks, i);
      if cached[i].kind == Human {
        humanCount := humanCount + 1;
        if humanCount == 2 {
          MarkedWithSecond(ks, i);
          cached[i].content := Wrap(cached[i].content);
          return;
        }
      }
      i := i - 1;
    }
    assert ks[0..] == ks;
    MarkedOnlyLast(ks);
  }

  /**
   * `submitQuestion` up to the opaque graph run: the converted messages become
   * fresh message objects, annotated with cache hints.
   */
  method SubmitQuestion(messages: seq<Message>) returns (cached: seq<BaseMessage>)
    ensures Values(cached) == CacheAnnotated(messages)
    ensures forall m :: m in cached ==> fresh(m)
  {
    var objs: seq<BaseMessage> := [];
    var i := 0;
    while i < |messages|
      invariant 0 <= i <= |messages|
      invariant |objs| == i
      invariant forall k :: 0 <= k < i ==> objs[k].Value() == messages[k]
      invariant forall m :: m in objs ==> fresh(m)
      invariant Distinct(objs)
    {
      var m := new BaseMessage(messages[i].kind, messages[i].content, messages[i].toolCalls);
      objs := objs + [m];
      i := i + 1;
    }
    assert KindsOf(objs) == Kinds(messages);
    cached := AddCachingHeaders(objs);
  }

  // ---------------------------------------------------------------------------
  // Prompt normalisation

  /**
   * The content the agent sends for a message: parts are replaced by their
   * texts joined with a space (a part without text counts as ""), any other
   * non-string value by its JSON encoding; a string is kept.
   */
  function NormalisedContent(rt: Runtime, c: Content): (r: Content)
    ensures r.Text?
    ensures c.Text? ==> r == c
    ensures c.Structured? ==> r.text == rt.stringify(c.value)
    ensures c.Parts? && c.parts == [] ==> r.text == ""
    ensures c.Parts? && |c.parts| == 1 ==> r.text == PartText(c.parts[0])
  {
    match c
    case Text(s) => c
    case Parts(ps) => Text(JoinWith(PartTexts(ps), " "))
    case Structured(j) => Text(rt.stringify(j))
  }

  /** `content.map(item => item.text)` */
  function PartTexts(ps: seq<Part>): (r: seq<string>)
    ensures |r| == |ps|
    ensures forall i :: 0 <= i < |ps| ==> r[i] == PartText(ps[i])
  {
    seq(|ps|, i requires 0 <= i < |ps| => PartText(ps[i]))
  }

  /**
   * Parts are joined with a space: one more part adds a space and its text
   * (or "" when it has none) after the texts of the earlier parts.
   */
  lemma NormalisedPartsAppend(rt: Runtime, ps: seq<Part>, p: Part)
    requires ps != []
    ensures NormalisedContent(rt, Parts(ps + [p])).text == NormalisedContent(rt, Parts(ps)).text + " " + PartText(p)
  {
    assert PartTexts(ps + [p]) == PartTexts(ps) + [PartText(p)];
    JoinWithAppend(PartTexts(ps), PartText(p), " ");
  }

  /** Normalising twice is normalising once. */
  lemma NormaliseIdempotent(rt: Runtime, c: Content)
    ensures NormalisedContent(rt, NormalisedContent(rt, c)) == NormalisedContent(rt, c)
  {
  }

  /**
   * The normalisation of the prompt's messages, which rewrites each message
   * object's content in place. An object listed twice is normalised twice,
   * to the same effect.
   */
  method NormalisePrompt(rt: Runtime, messages: seq<BaseMessage>)
    modifies set m | m in messages
    ensures forall i :: 0 <= i < |messages| ==>
      messages[i].content == NormalisedContent(rt, old(messages[i].content))
    ensures forall i :: 0 <= i < |messages| ==> messages[i].toolCalls == old(messages[i].toolCalls)
  {
    var i := 0;
    while i < |messages|
      invariant 0 <= i <= |messages|
      invariant forall k :: 0 <= k < |messages| ==>
        messages[k].content == (if messages[k] in messages[..i] then NormalisedContent(rt, old(messages[k].content)) else old(messages[k].content))
      invariant forall k :: 0 <= k < |messages| ==> messages[k].toolCalls == old(messages[k].toolCalls)
    {
      var m := messages[i];
      NormaliseIdempotent(rt, old(m.content));
      m.content := NormalisedContent(rt, m.content);
      assert messages[..i + 1] == messages[..i] + [m];
      i := i + 1;
    }
    assert messages[..|messages|] == messages;
  }

  // ---------------------------------------------------------------------------
  // Fix-ups of the model reply

  const FallbackAnswer: string := "I'm sorry, " + "I couldn't generate a valid answer."
  const ToolProblemAnswer: string := "Sorry, there was a problem processing the tool used."
  const DailyLimitAnswer: string := "Sorry, this model has reached its daily usage limit. Please try again later."
  const PromptErrorText: string := "Error processing the prompt. Check the message content."

  /**
   * The reply content after the three fix-ups: non-string truthy content is
   * JSON-encoded; falsy or blank content becomes the fallback answer; empty
   * content with tool calls would become the tool-problem answer.
   */
  function FixedContent(rt: Runtime, c: Content, hasToolCalls: bool): Content {
    var c1 := if ContentTruthy(c) && !c.Text? then Text(rt.stringify(ContentJson(c))) else c;
    var c2 := if !ContentTruthy(c1) || Trim(c1.text) == "" then Text(FallbackAnswer) else c1;
    if c2 == Text("") && hasToolCalls then Text(ToolProblemAnswer) else c2
  }

  lemma FallbackNotBlank()
    ensures Trim(FallbackAnswer) == FallbackAnswer != ""
  {
    TrimPadded("", FallbackAnswer);
    assert "" + FallbackAnswer == FallbackAnswer;
  }

  /**
   * The reply content is never blank afterwards, and the tool-problem
   * substitution can never apply: a non-blank string is kept, a truthy
   * non-string becomes its encoding unless that is blank, and everything
   * else becomes the fallback answer.
   */
  lemma ReplyNeverBlank(rt: Runtime, c: Content, hasToolCalls: bool)
    ensures var r := FixedContent(rt, c, hasToolCalls);
      && r.Text? && Trim(r.text) != ""
      && r == FixedContent(rt, c, false)
      && (c.Text? && Trim(c.text) != "" ==> r == c)
      && (c.Text? && Trim(c.text) == "" ==> r == Text(FallbackAnswer))
      && (!c.Text? && ContentTruthy(c) && Trim(rt.stringify(ContentJson(c))) != "" ==>
            r == Text(rt.stringify(ContentJson(c))))
      && (!c.Text? && ContentTruthy(c) && Trim(rt.stringify(ContentJson(c))) == "" ==> r == Text(FallbackAnswer))
      && (!c.Text? && !ContentTruthy(c) ==> r == Text(FallbackAnswer))
  {
    FallbackNotBlank();
    if c.Text? {
      if c.text == "" {
        assert Trim("") == "";
      }
    } else if ContentTruthy(c) {
      var e := rt.stringify(ContentJson(c));
      if e == "" {
        assert Trim("") == "";
      }
    }
  }

  const InvalidArgsPayload: Json := JObj(map["error" := JStr("Invalid JSON format")])

  /** A tool call whose arguments arrived as non-empty text gets them decoded, or the error payload. */
  function FixedCall(rt: Runtime, tc: ToolCall): ToolCall {
    if tc.args.JStr? && tc.args.s != "" then
      match rt.parse(tc.args.s)
      case Some(v) => tc.(args := v)
      case None => tc.(args := InvalidArgsPayload)
    else tc
  }

  function FixedCalls(rt: Runtime, calls: seq<ToolCall>): (r: seq<ToolCall>)
    ensures |r| == |calls|
    ensures forall i :: 0 <= i < |calls| ==> r[i] == FixedCall(rt, calls[i])
  {
    seq(|calls|, i requires 0 <= i < |calls| => FixedCall(rt, calls[i]))
  }

  /**
   * The tool calls keep their number, order, ids and names; text arguments are
   * decoded or replaced by the error payload; other arguments are untouched.
   */
  lemma FixedCallsSpec(rt: Runtime, calls: seq<ToolCall>, i: int)
    requires 0 <= i < |calls|
    ensures var r := FixedCalls(rt, calls);
      && |r| == |calls|
      && r[i].id == calls[i].id && r[i].name == calls[i].name
      && (!calls[i].args.JStr? || calls[i].args.s == "" ==> r[i] == calls[i])
      && (calls[i].args.JStr? && calls[i].args.s != "" ==>
            r[i].args == (if rt.parse(calls[i].args.s).Some? then rt.parse(calls[i].args.s).value else InvalidArgsPayload))
  {
  }

  /** The reply after its fix-ups, as a value. */
  function FixedReply(rt: Runtime, m: Message): Message {
    m.(content := FixedContent(rt, m.content, |m.toolCalls| > 0), toolCalls := FixedCalls(rt, m.toolCalls))
  }

  /** The fix-ups applied in place to the reply object. */
  method FixUpReply(rt: Runtime, response: BaseMessage)
    modifies response
    ensures response.Value() == FixedReply(rt, old(response.Value()))
  {
    if ContentTruthy(response.content) && !response.content.Text? {
      response.content := Text(rt.stringify(ContentJson(response.content)));
    }
    if !ContentTruthy(response.content) || Trim(response.content.text) == "" {
      response.content := Text(FallbackAnswer);
    }
    if response.content == Text("") && |response.toolCalls| > 0 {
      response.content := Text(ToolProblemAnswer);
    }
    var calls := response.toolCalls;
    var fixed: seq<ToolCall> := [];
    var i := 0;
    while i < |calls|
      invariant 0 <= i <= |calls|
      invariant fixed == FixedCalls(rt, calls[..i])
    {
      var tc := calls[i];
      if tc.args.JStr? && tc.args.s != "" {
        var parsed := rt.parse(tc.args.s);
        if parsed.Some? {
          tc := tc.(args := parsed.value);
        } else {
          tc := tc.(args := InvalidArgsPayload);
        }
      }
      fixed := fixed + [tc];
      i := i + 1;
    }
    assert calls[..|calls|] == calls;
    response.toolCalls := fixed;
  }

  // ---------------------------------------------------------------------------
  // One agent step and the graph

  /** What the opaque model call gave: a reply (content and tool calls) or a thrown error value. */
  datatype ModelOutcome = Answered(content: Content, toolCalls: seq<ToolCall>) | Raised(error: Json)

  datatype AgentResult = Replied(reply: Message) | Threw(message: string)

  /** `status === 429 && error.code === "rate_limit_exceeded"` on the thrown value. */
  predicate IsRateLimit(error: Json) {
    var inner := Field(error, "error");
    && Field(error, "status") == Some(JNum(429.0))
    && inner.Some? && inner.value.JObj?
    && Field(inner.value, "code") == Some(JStr("rate_limit_exceeded"))
  }

  /** The agent node after the model call: the fixed-up reply, the daily-limit answer, or the prompt error. */
  function AgentStep(rt: Runtime, outcome: ModelOutcome): AgentResult {
    match outcome
    case Answered(content, calls) => Replied(FixedReply(rt, Message(AI, content, calls)))
    case Raised(error) =>
      if IsRateLimit(error) then Replied(Message(AI, Text(DailyLimitAnswer), []))
      else Threw(PromptErrorText)
  }

  /**
   * A rate-limit error yields one message with the daily-limit answer; every
   * other error throws the prompt error; a reply is an assistant message with
   * as many tool calls as the model requested.
   */
  lemma AgentStepOutcomes(rt: Runtime, outcome: ModelOutcome)
    ensures outcome.Raised? && IsRateLimit(outcome.error) ==>
      AgentStep(rt, outcome) == Replied(Message(AI, Text(DailyLimitAnswer), []))
    ensures outcome.Raised? && !IsRateLimit(outcome.error) ==> AgentStep(rt, outcome) == Threw(PromptErrorText)
    ensures outcome.Answered? ==>
      (AgentStep(rt, outcome).Replied? && AgentStep(rt, outcome).reply.kind == AI
       && |AgentStep(rt, outcome).reply.toolCalls| == |outcome.toolCalls|)
  {
  }

  datatype Node = Agent | Tools | End

  datatype Status = Finished | Failed(message: string) | OutOfReplies

  datatype Run = Run(visited: seq<Node>, messages: seq<Message>, status: Status)

  /** The tool node's output: one tool message per requested call, in order. */
  function ToolResults(calls: seq<ToolCall>, runTool: ToolCall -> Content): (r: seq<Message>)
    ensures |r| == |calls|
    ensures forall i :: 0 <= i < |r| ==> r[i].kind == Tool && r[i].toolCalls == []
  {
    seq(|calls|, i requires 0 <= i < |calls| => Message(Tool, runTool(calls[i]), []))
  }

  /**
   * A run of the graph from START (which leads to the agent), consuming one
   * model outcome per agent step; after the agent the route decides; after the
   * tools control returns to the agent.
   */
  function Walk(rt: Runtime, state: seq<Message>, outcomes: seq<ModelOutcome>, runTool: ToolCall -> Content): Run
    decreases |outcomes|
  {
    if outcomes == [] then Run([], state, OutOfReplies)
    else match AgentStep(rt, outcomes[0])
      case Threw(e) => Run([Agent], state, Failed(e))
      case Replied(reply) =>
        var s1 := state + [reply];
        match ShouldContinue(s1)
        case ToEnd => Run([Agent, End], s1, Finished)
        case ToTools =>
          var rest := Walk(rt, s1 + ToolResults(reply.toolCalls, runTool), outcomes[1..], runTool);
          Run([Agent, Tools] + rest.visited, rest.messages, rest.status)
        case ToAgent =>
          var rest := Walk(rt, s1, outcomes[1..], runTool);
          Run([Agent] + rest.visited, rest.messages, rest.status)
  }

  /** The agent's own reply is never routed back to the agent. */
  lemma NoAgentToAgent(rt: Runtime, state: seq<Message>, outcome: ModelOutcome)
    requires AgentStep(rt, outcome).Replied?
    ensures ShouldContinue(state + [AgentStep(rt, outcome).reply]) != ToAgent
    ensures ShouldContinue(state + [AgentStep(rt, outcome).reply]) == ToTools <==>
      outcome.Answered? && |outcome.toolCalls| > 0
  {
  }

  predicate RequestsTools(o: ModelOutcome) {
    o.Answered? && |o.toolCalls| > 0
  }

  function Repeat(ns: seq<Node>, k: nat): seq<Node> {
    if k == 0 then [] else ns + Repeat(ns, k - 1)
  }

  /**
   * k replies requesting tools followed by one reply without tool calls:
   * the graph visits Agent, Tools, ..., Agent, Tools, Agent, End and finishes.
   */
  lemma {:induction false} ToolLoopThenEnd(rt: Runtime, state: seq<Message>, outcomes: seq<ModelOutcome>, runTool: ToolCall -> Content, k: nat)
    requires k < |outcomes|
    requires forall i :: 0 <= i < k ==> RequestsTools(outcomes[i])
    requires outcomes[k].Answered? && outcomes[k].toolCalls == []
    ensures Walk(rt, state, outcomes, runTool).visited == Repeat([Agent, Tools], k) + [Agent, End]
    ensures Walk(rt, state, outcomes, runTool).status == Finished
    decreases k
  {
    var reply := AgentStep(rt, outcomes[0]).reply;
    NoAgentToAgent(rt, state, outcomes[0]);
    if k > 0 {
      var s2 := state + [reply] + ToolResults(reply.toolCalls, runTool);
      ToolLoopThenEnd(rt, s2, outcomes[1..], runTool, k - 1);
      assert [Agent, Tools] + (Repeat([Agent, Tools], k - 1) + [Agent, End])
        == Repeat([Agent, Tools], k) + [Agent, End];
    }
  }

  /**
   * Every run follows the graph's edges: it starts at the agent, the tools
   * are always followed by the agent, and the end, if reached, is last and
   * means the run finished.
   */
  lemma {:induction false} WalkFollowsEdges(rt: Runtime, state: seq<Message>, outcomes: seq<ModelOutcome>, runTool: ToolCall -> Content)
    ensures var v := Walk(rt, state, outcomes, runTool).visited;
      && (outcomes != [] ==> |v| > 0 && v[0] == Agent)
      && (forall i :: 0 <= i < |v| && v[i] == Tools ==> i + 1 < |v| ==> v[i + 1] == Agent)
      && (forall i :: 0 <= i < |v| && v[i] == End ==> i == |v| - 1)
      && (End in v <==> Walk(rt, state, outcomes, runTool).status == Finished)
    decreases |outcomes|
  {
    if outcomes != [] {
      var step := AgentStep(rt, outcomes[0]);
      if step.Replied? {
        var s1 := state + [step.reply];
        NoAgentToAgent(rt, state, outcomes[0]);
        if ShouldContinue(s1) == ToTools {
          var s2 := s1 + ToolResults(step.reply.toolCalls, runTool);
          WalkFollowsEdges(rt, s2, outcomes[1..], runTool);
          var rest := Walk(rt, s2, outcomes[1..], runTool).visited;
          var v := [Agent, Tools] + rest;
          forall i | 0 <= i < |v| && v[i] == Tools && i + 1 < |v| ensures v[i + 1] == Agent {
            if i >= 2 { assert v[i] == rest[i - 2]; assert v[i + 1] == rest[i - 1]; }
          }
          forall i | 0 <= i < |v| && v[i] == End ensures i == |v| - 1 {
            assert i >= 2 && v[i] == rest[i - 2];
          }
          assert End in v <==> End in rest;
        }
      }
    }
  }

  /** A model error other than the rate limit stops the run at the agent with the prompt error. */
  lemma ModelErrorFailsRun(rt: Runtime, state: seq<Message>, outcomes: seq<ModelOutcome>, runTool: ToolCall -> Content)
    requires outcomes != [] && outcomes[0].Raised? && !IsRateLimit(outcomes[0].error)
    ensures Walk(rt, state, outcomes, runTool) == Run([Agent], state, Failed(PromptErrorText))
  {
  }

  /** The rate limit ends the turn normally, with the daily-limit answer as the last message. */
  lemma RateLimitEndsRun(rt: Runtime, state: seq<Message>, outcomes: seq<ModelOutcome>, runTool: ToolCall -> Content)
    requires outcomes != [] && outcomes[0].Raised? && IsRateLimit(outcomes[0].error)
    ensures Walk(rt, state, outcomes, runTool) ==
      Run([Agent, End], state + [Message(AI, Text(DailyLimitAnswer), [])], Finished)
  {
  }
}
