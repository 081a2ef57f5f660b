# A verified model of the YouTube AI agent's chat pipeline

The system is a chat application. A user's question goes from the browser
component (`ChatInterface`) to a streaming HTTP endpoint (`POST
/api/chat/stream`). The endpoint runs a LangGraph agent and writes the
agent's activity back as server-sent-event frames. The browser reads them
with an incremental parser (`createSSEParser`) and folds them into the
visible answer. Chats are stored in Convex tables (`createChat`,
`deleteChat`, `listChats`).

The Dafny project has one module for each of these five pieces, and three
shared modules of values and helpers:

- `JsValues`: decoded JSON, message content (a string, parts or another
  value), JavaScript truthiness, and the runtime's opaque conversions.
  `JSON.parse`, `JSON.stringify`, `JSON.stringify(v, null, 2)` and `String(v)`
  are fields of a `Runtime` record passed in as a parameter.
- `Strings`: `trim` (the ECMAScript white-space set), `startsWith`,
  `split("\n")`, `lastIndexOf` and `join`.
- `Protocol`: the six message type names, the framing constants (a
  `Framing` parameter, because `lib/types.ts` is not part of this model), and
  the frame of one message.
- `SseParser` (lib/createSSEParser.ts): the per-line decoding and the
  `SSEParser` class with its `buffer` field. It proves that the chunking of
  the input does not change the result. It also proves that any chunking of
  the frames the server writes is read back as exactly the messages written.
- `AgentGraph` (lib/langgraph.ts): routing (`shouldContinue`) and the cache
  hints. `addCachingHeaders` is a reverse loop over `BaseMessage` objects
  updated in place, so the shallow copy's aliasing is kept. It also covers
  the agent node's normalisation and reply fix-ups, the rate-limit branch,
  and runs of the graph over a sequence of model outcomes.
- `TurnController` (app/api/chat/stream/route.ts): the `TurnStream` class
  records every write, the persistence and submission attempts, and the
  close. `StartStream` is proved to perform exactly `TurnActions`, and
  `Post` adds the 401 and 500 paths.
- `ChatClient` (components/ChatInterface.tsx): the terminal blocks, the
  submit guard, the request, the fold of parsed messages (`Step`,
  `FoldMessages`, `FoldStream`), and the `ChatInterface` class with its
  React state as fields.
- `Chats` (convex/chats.ts): the `ChatDb` class over `chats` and `messages`
  maps.

Some behaviours of the code are modelled as they are written:

- **Several `done` frames are possible.** Each `on_chat_model_end` event
  writes a `done` frame, and a fallback `done` follows the loop.
- **A `done` ends only its chunk.** On the client it ends only the chunk it
  arrives in (`return` inside the chunk callback). The stream goes on, so
  one submission can append several assistant messages.
- **Tool ends use a stale tool.** The tool-end branch tests the
  `currentTool` the submission's closure captured when it started. After a
  fresh start that is null, so the block reading "Processing..." is kept
  (`ChatClient.ToolEndWithoutCapturedTool`). The model keeps this captured
  value as an input of the fold.
- **The tool-problem branch never applies.** The fix-up replaces empty reply
  content with the fallback answer first
  (`AgentGraph.ReplyNeverBlank`).

## Model

| member | source | states |
|---|---|---|
| JsValues.Field | components/ChatInterface.tsx:152 | a member is found exactly when the value is an object that has the key, and it is that key's value |
| JsValues.ErrorText | app/api/chat/stream/route.ts:119 | an `Error` yields its message; any other thrown value yields the fallback text |
| Strings.SplitLayout | lib/createSSEParser.ts:11-12 | the pieces of `split("\n")` are the complete lines followed by the rest; no piece holds a newline; each line plus a newline, followed by the rest, gives back the text |
| Strings.RestIsTextAfterLastNewline | lib/createSSEParser.ts:12 | the kept buffer is a suffix of the text, holds no newline, and is preceded by a newline unless it is the whole text |
| Strings.LastIndexOf | components/ChatInterface.tsx:174 | the result is -1 or a position where the pattern occurs, and the pattern occurs at no later position |
| Strings.JoinWithAppend | lib/langgraph.ts:121 | joining one more piece adds the separator and that piece after the join of the earlier pieces; a single piece is joined as itself |
| Protocol.MessageTypesDistinct | lib/createSSEParser.ts:24 | the six message type names are pairwise different |
| Protocol.HasMessageType | lib/createSSEParser.ts:24 | the filter of decoded values: the value has a `type` member that is a string and one of the six message type names; `SseParser.DecodeLine` states how it decides which values are kept |
| Protocol.EmittedType | app/api/chat/stream/route.ts:49-52 | every message the server emits carries its type, which is a message type |
| Protocol.ServerMembers | app/api/chat/stream/route.ts:70-106 | the token, tool-start and tool-end messages the server builds carry their type and their own `token`, `tool`, `input` and `output` members (besides `content`) |
| Protocol.Frame | app/api/chat/stream/route.ts:16-21 | the frame of one message begins with the data prefix and ends with the line delimiter, and what lies between them is exactly the message's JSON text |
| SseParser.DecodeLine | lib/createSSEParser.ts:15-30 | a blank or unprefixed line yields nothing; the done sentinel yields exactly the done message; an undecodable payload, or one that decodes to `null` (reading its `type` throws), yields the parse-failure error; a decoded value is kept exactly when its type is a message type |
| SseParser.DecodeLines | lib/createSSEParser.ts:14-32 | at most one message per line, and every message has a message type (no null) |
| SseParser.DecodeLinesAppend | lib/createSSEParser.ts:14-32 | the messages follow the order of the lines |
| SseParser.DecodeBlankLines | lib/createSSEParser.ts:16-17 | lines made only of blanks yield no message |
| SseParser.ParseStep | lib/createSSEParser.ts:10-33 | one call of `parse` on values: the buffer plus the chunk is split on newlines, the complete lines are decoded and the text after the last newline is kept; `SSEParser.Parse` is proved to compute it and `ChunkBoundaryInvariance` states its law |
| SseParser.ParseChunks | lib/createSSEParser.ts:10-33 | successive calls of `parse`, the messages of each call in order and the buffer passed on; `ParseChunksIsParseOfConcat` states what it computes |
| SseParser.SSEParser.constructor | lib/createSSEParser.ts:7-8 | a new parser starts with an empty buffer |
| SseParser.SSEParser.Parse | lib/createSSEParser.ts:10-33 | the new buffer is the text after the last newline of the old buffer plus the chunk; the messages are the decodings of the complete lines only |
| SseParser.ChunkBoundaryInvariance | lib/createSSEParser.ts:11-12 | parsing `a` then `b` gives the same messages, in order, and the same buffer as parsing `a + b` |
| SseParser.ParseChunksIsParseOfConcat | lib/createSSEParser.ts:10-33 | any split of a text into chunks parses like the whole text |
| SseParser.OneFrame | app/api/chat/stream/route.ts:16-21 | one frame read from a blank buffer yields exactly its message and leaves a blank buffer |
| SseParser.WireRoundTrip | lib/createSSEParser.ts:10-33 | the text of a sequence of frames parses to exactly those messages |
| SseParser.ReassembleAnyChunking | lib/createSSEParser.ts:10-33 | however the written frames are cut into chunks, the parser returns exactly the messages written, in order |
| AgentGraph.ShouldContinue | lib/langgraph.ts:74-90 | "tools" exactly when the last message has tool calls; otherwise "agent" exactly when it is a tool message with content; otherwise the end |
| AgentGraph.Wrap | lib/langgraph.ts:221-229 | the content becomes one text part carrying the old string and the ephemeral cache hint |
| AgentGraph.SecondHumanUnique | lib/langgraph.ts:236-246 | at most one position is the second human message from the end |
| AgentGraph.SecondHumanExists | lib/langgraph.ts:236-246 | a second human message from the end exists exactly when there are at least two human messages |
| AgentGraph.FindSecondHuman | lib/langgraph.ts:237-245 | the backward scan, continued from any count below two, reaches the second human message from the end |
| AgentGraph.MarkedWithSecond | lib/langgraph.ts:233-246 | with two human messages, exactly the last message and the second human from the end are marked |
| AgentGraph.MarkedOnlyLast | lib/langgraph.ts:233-246 | with fewer than two human messages only the last message is marked |
| AgentGraph.CacheAnnotated | lib/langgraph.ts:214-249 | the annotated list has the length of the input |
| AgentGraph.AnnotationMarksExactly | lib/langgraph.ts:214-249 | the last message is wrapped; with two or more human messages the second human message from the end is also wrapped and no other earlier message changes; with fewer, no earlier message changes; the kinds and every message's tool calls are kept |
| AgentGraph.AddCachingHeaders | lib/langgraph.ts:214-249 | returns the same objects in the same order and rewrites, in place, exactly the marked messages' content, leaving tool calls alone |
| AgentGraph.SubmitQuestion | lib/langgraph.ts:251-254 | the messages handed to the graph are the cache-annotated input, as new objects |
| AgentGraph.NormalisedContent | lib/langgraph.ts:118-127 | the content is always a string: a string is kept, another value becomes its JSON text, no parts give "" and one part gives its text |
| AgentGraph.NormalisedPartsAppend | lib/langgraph.ts:119-121 | for parts, one more part adds a space and its text (or "" when it has none) after the joined texts of the earlier parts, so by induction the result is every part's text in order, separated by single spaces |
| AgentGraph.NormaliseIdempotent | lib/langgraph.ts:118-127 | normalising twice is normalising once |
| AgentGraph.NormalisePrompt | lib/langgraph.ts:118-127 | every listed message object's content is normalised in place, even when an object appears twice |
| AgentGraph.FallbackNotBlank | lib/langgraph.ts:151 | the fallback answer is not blank |
| AgentGraph.FixedContent | lib/langgraph.ts:141-161 | the reply content after the two fix-ups (non-string content becomes its JSON text, then blank content becomes the fallback answer, then the tool-problem test); `ReplyNeverBlank` states what it yields |
| AgentGraph.FixedCall | lib/langgraph.ts:166-175 | one tool call after the argument fix-up; `FixedCallsSpec` states its cases |
| AgentGraph.FixedReply | lib/langgraph.ts:140-177 | the model reply with its content and its tool calls fixed up; `FixUpReply` is proved to compute it in place |
| AgentGraph.ReplyNeverBlank | lib/langgraph.ts:141-161 | the fixed content is a non-blank string in every case; it does not depend on the tool calls, so the tool-problem text is never substituted |
| AgentGraph.FixedCalls | lib/langgraph.ts:164-177 | the fixed calls keep the number and order of the calls |
| AgentGraph.FixedCallsSpec | lib/langgraph.ts:164-177 | non-empty string arguments become their decoding, or the invalid-JSON payload; other arguments, ids and names are kept |
| AgentGraph.FixUpReply | lib/langgraph.ts:141-177 | the reply object, updated in place, equals the fixed-up reply |
| AgentGraph.IsRateLimit | lib/langgraph.ts:184-194 | the error is an object whose `status` is 429 and whose `error` member is an object with `code` "rate_limit_exceeded"; `AgentStepOutcomes` and `RateLimitEndsRun` state what follows from it |
| AgentGraph.AgentStep | lib/langgraph.ts:138-206 | the agent node on one model outcome: the fixed-up reply, the daily-limit message, or the prompt error; `AgentStepOutcomes` states the cases |
| AgentGraph.AgentStepOutcomes | lib/langgraph.ts:138-206 | a rate-limit error yields the one daily-limit message; every other error throws the prompt error; an answer is an AI message with as many tool calls as requested |
| AgentGraph.ToolResults | lib/langgraph.ts:208 | the tool node yields one tool message per requested call |
| AgentGraph.Walk | lib/langgraph.ts:208-211 | a run of the graph from the agent, one model outcome per agent visit, following `shouldContinue` and the tools-to-agent edge; `WalkFollowsEdges` and `ToolLoopThenEnd` state its shape |
| AgentGraph.NoAgentToAgent | lib/langgraph.ts:74-90 | the agent's own reply is never routed back to the agent, and goes to the tools exactly when it requests tools |
| AgentGraph.ToolLoopThenEnd | lib/langgraph.ts:208-211 | k tool-requesting replies and then a plain one visit agent, tools k times, then agent and end, and finish |
| AgentGraph.WalkFollowsEdges | lib/langgraph.ts:208-211 | every run starts at the agent, follows each tools step with the agent, and reaches the end only last and exactly when it finishes |
| AgentGraph.ModelErrorFailsRun | lib/langgraph.ts:205 | a model error other than the rate limit fails the run at the agent with the prompt error |
| AgentGraph.RateLimitEndsRun | lib/langgraph.ts:184-204 | the rate limit finishes the run with the daily-limit answer as last message |
| TurnController.ToLangChain | app/api/chat/stream/route.ts:59-64 | one agent message per history message, plus the new question |
| TurnController.ConversionSpec | app/api/chat/stream/route.ts:59-64 | role "user" becomes a human message and every other role an AI message, in order, with the same content; the new question comes last as a human message |
| TurnController.ChunkText | app/api/chat/stream/route.ts:72-76 | a token text exists exactly when the content's first part has a non-empty text, and it is that text |
| TurnController.ToolEndName | app/api/chat/stream/route.ts:99-102 | the reported tool name is the output's truthy `name` member, otherwise "unknown"; it is always truthy |
| TurnController.EventMessages | app/api/chat/stream/route.ts:70-107 | at most one message per event |
| TurnController.EventMessage | app/api/chat/stream/route.ts:70-106 | the message written for one graph event, if any; `EventMessageType` and `EventMessageCases` state its cases |
| TurnController.EventMessagesSpec | app/api/chat/stream/route.ts:70-107 | one done message per model-end event, no error or connected message, every message typed |
| TurnController.EventMessageType | app/api/chat/stream/route.ts:70-106 | an event's message is typed, never an error, and is a done message exactly for a model-end event |
| TurnController.EventMessageCases | app/api/chat/stream/route.ts:70-106 | stream chunks give a token exactly when they carry text; tool starts and ends give their frames with "unknown" as default name; other events give nothing |
| TurnController.TurnWritesTurnMessages | app/api/chat/stream/route.ts:46-137 | the messages written during a turn are exactly the turn's message sequence |
| TurnController.AfterPersistMessages | app/api/chat/stream/route.ts:66-122 | after a successful persistence the messages written are the submission's error, or the event messages followed by the final message |
| TurnController.ConnectedFirst | app/api/chat/stream/route.ts:49-57 | the connected message is written first, before the user message is persisted |
| TurnController.FinalMessage | app/api/chat/stream/route.ts:109-122 | after the event loop a done message ends a normal run; a failed iteration ends it with an error message instead, never a done |
| TurnController.AfterPersist | app/api/chat/stream/route.ts:59-122 | the actions after the user message is persisted: the submission, then its error or the event messages and the final message; `RunGraph` is proved to perform them |
| TurnController.TurnActions | app/api/chat/stream/route.ts:46-137 | the whole turn as a sequence of actions; `StartStream` is proved to perform it and `ConnectedFirst`, `CloseOnceLast` and `ErrorDiscipline` state its shape |
| TurnController.CloseOnceLast | app/api/chat/stream/route.ts:130-136 | close is attempted exactly once, as the last action, on every path |
| TurnController.ErrorDiscipline | app/api/chat/stream/route.ts:109-129 | a normal end writes the event messages and one fallback done; each failure writes exactly one error, last, with its fallback text; no failure means no error |
| TurnController.ClientReadsTurn | app/api/chat/stream/route.ts:16-21 | whatever the chunking, the client's parser reads back exactly the messages of the turn |
| TurnController.TurnStream.constructor | app/api/chat/stream/route.ts:34-35 | a new stream has recorded nothing and is open |
| TurnController.TurnStream.Send | app/api/chat/stream/route.ts:16-21 | one write is appended to the record |
| TurnController.TurnStream.SendEvents | app/api/chat/stream/route.ts:70-107 | the loop writes the events' messages in order |
| TurnController.TurnStream.RunGraph | app/api/chat/stream/route.ts:66-122 | the submission is attempted, then either its error or the events and the final done or error is written |
| TurnController.TurnStream.StartStream | app/api/chat/stream/route.ts:46-137 | the stream records exactly the turn's actions, and is closed exactly when closing succeeded |
| TurnController.Post | app/api/chat/stream/route.ts:23-144 | a throwing `auth()` yields 500 and no stream; no (or an empty) user id yields 401 and no stream; an unreadable body yields 500; otherwise a new stream whose text is the frames of the turn's messages |
| ChatClient.FormatToolOutput | components/ChatInterface.tsx:32-35 | a string is shown as it is, any other value as indented JSON |
| ChatClient.FormatTerminalOutput | components/ChatInterface.tsx:37-52 | a terminal block: the start line, the markup with the tool name and the formatted input and output, the end line; `TerminalBlockShape` states its shape |
| ChatClient.TerminalBlockShape | components/ChatInterface.tsx:37-52 | every block starts with the start line and the marker, and ends with the end line |
| ChatClient.AcceptedInput | components/ChatInterface.tsx:80-81 | a submission goes ahead exactly when the trimmed input is not empty and nothing is loading, with the trimmed input |
| ChatClient.FirstTextPart | components/ChatInterface.tsx:109 | the text of the first part whose type is "text", or "" when there is none; `FirstTextPartSpec` states it |
| ChatClient.PromptMessage | components/ChatInterface.tsx:107-119 | one earlier message as it goes into the request, multi-part content replaced by its first text; `RequestSpec` states what the request keeps |
| ChatClient.FirstTextPartSpec | components/ChatInterface.tsx:107-113 | multi-part content becomes the text of the first part of type "text", or "" |
| ChatClient.BuildRequest | components/ChatInterface.tsx:115-122 | the request carries one normalised message per earlier message, in order |
| ChatClient.RequestSpec | components/ChatInterface.tsx:107-122 | the request keeps each role, has no multi-part content, keeps string content, and carries the new message and the chat id |
| ChatClient.UntypedSkipped | components/ChatInterface.tsx:146-148 | a message without a truthy type changes nothing |
| ChatClient.Step | components/ChatInterface.tsx:146-213 | the reaction to one parsed message on the view; the `…Step`, `ErrorAborts` and `DoneEndsChunk` lemmas state each case |
| ChatClient.TokenStep | components/ChatInterface.tsx:151-158 | for any message of type "token", whatever else it carries: a string `token` member is appended to the response exactly; a missing or non-string one changes nothing |
| ChatClient.ToolStartStep | components/ChatInterface.tsx:160-171 | for any message of type "tool_start": with both `tool` and `input` members, a block whose output reads "Processing..." is appended and the tool is remembered; without them nothing changes |
| ChatClient.ToolEndStep | components/ChatInterface.tsx:172-185 | for any message of type "tool_end": with `tool`, `output` and a captured tool, and a marker in the response, the response is cut at the last marker, the re-rendered block is appended and the tool forgotten; with no marker only the tool is forgotten; otherwise nothing changes |
| ChatClient.ServerMessageSteps | components/ChatInterface.tsx:151-185 | the token, tool-start and tool-end messages exactly as the server builds them (with `content`) take these cases: the token is appended, the block is appended and the tool remembered, and the tool end is ignored without a captured tool or cuts and re-renders with one |
| ChatClient.ToolStartThenEnd | components/ChatInterface.tsx:160-180 | for any tool start with `tool` and `input` followed by any tool end with `tool` and `output`, with a captured tool: the response keeps the text before the block and the block's start line, and ends with the block re-rendered from the captured input and the reported output |
| ChatClient.ToolEndWithoutCapturedTool | components/ChatInterface.tsx:172-185 | for any tool start with `tool` and `input` followed by any tool end, with no tool captured at submission: the tool end is ignored, the "Processing..." block stays and the started tool stays remembered |
| ChatClient.ErrorAborts | components/ChatInterface.tsx:186-192 | an error message, or a line the parser could not decode, aborts with its text |
| ChatClient.DoneEndsChunk | components/ChatInterface.tsx:193-212 | a done appends one assistant message holding the response, clears the shown text, and skips the rest of the chunk |
| ChatClient.FoldMessages | components/ChatInterface.tsx:145-214 | the messages of one chunk, folded in order until one ends the chunk or aborts; `ProcessChunk` is proved to compute it |
| ChatClient.FoldStream | components/ChatInterface.tsx:54-76 | the chunks of the stream parsed and folded in order until a message aborts; `ProcessStream` is proved to compute it |
| ChatClient.FoldKeepsMessages | components/ChatInterface.tsx:140-215 | the fold only appends to the message list |
| ChatClient.WithoutId | components/ChatInterface.tsx:218 | every kept message lacks the optimistic id and comes from the list, and every message of the list without that id is kept |
| ChatClient.WithoutIdAppend | components/ChatInterface.tsx:218 | the filter keeps order: filtering a concatenation is concatenating the filtered parts |
| ChatClient.WithoutIdKeepsOthers | components/ChatInterface.tsx:218 | a list with no message carrying the id is kept exactly, order and repetitions included |
| ChatClient.WithoutIdSkipsOthers | components/ChatInterface.tsx:218 | removing the optimistic message after appending it gives back the earlier list without that id |
| ChatClient.ProcessChunk | components/ChatInterface.tsx:145-214 | the loop over one chunk's messages returns exactly the fold of `Step` over them: it stops at the first message that ends the chunk (a done) or throws (an error, a failed store), and otherwise goes on to the end |
| ChatClient.ProcessStream | components/ChatInterface.tsx:54-76 | the read loop parses each chunk and folds its messages, in order, until the stream ends, a message throws, or a rejected read re-throws after the earlier chunks took effect |
| ChatClient.ReadFailure | components/ChatInterface.tsx:59-72 | a rejected read aborts with its error text (or "Unknown error") and the view the earlier chunks left, unless a message already aborted, whose outcome is kept |
| ChatClient.RunSubmission | components/ChatInterface.tsx:105-215 | one submission: a rejected response fails with its text, a missing body with the no-body text, a throwing `fetch` with its error text, and a stream is folded chunk by chunk and fails when a read rejects; `HandleSubmit` is proved to apply it |
| ChatClient.ErrorBlock | components/ChatInterface.tsx:219-225 | the terminal block shown after a failure, for the tool "error" with the fixed input text and the error text as output |
| ChatClient.ChatInterface.constructor | components/ChatInterface.tsx:20-25 | the component starts with the initial messages, not loading, with no input, response or tool |
| ChatClient.ChatInterface.HandleSubmit | components/ChatInterface.tsx:78-229 | a refused input changes nothing; otherwise the input is cleared, the request is built from the earlier messages, and the stream is folded over the list with the user's message; a failure removes that message and shows the error block; loading ends on every path |
| Chats.WithoutChat | convex/chats.ts:40-47 | the messages table with the messages of one chat removed; `WithoutChatSpec` states which remain |
| Chats.WithoutChatSpec | convex/chats.ts:40-47 | after the cascade no message of the chat is left, and every message of another chat is kept unchanged |
| Chats.WithoutChatIdempotent | convex/chats.ts:40-47 | removing a chat's messages twice is removing them once |
| Chats.OwnedBelow | convex/chats.ts:62-66 | exactly the user's chats, with their stored fields, newest first |
| Chats.NewChatListedFirst | convex/chats.ts:13-18 | a newly created chat heads its owner's list, and other users' lists stay the same |
| Chats.ChatDb.CreateChat | convex/chats.ts:8-19 | no identity throws and inserts nothing; otherwise exactly one chat owned by the caller is inserted under a new id, which is returned and heads the caller's list |
| Chats.ChatDb.DeleteChat | convex/chats.ts:26-51 | no identity, a missing chat or another user's chat throws and changes nothing; otherwise the chat and exactly its messages are removed, and nothing else changes |
| Chats.ChatDb.ListChats | convex/chats.ts:55-68 | no identity throws; otherwise exactly the caller's chats, each with its stored fields, newest first |

## Left out

- Protocol: the six message type strings ("connected", "token", "tool_start", "tool_end", "done", "error") are assumed values of `StreamMessageType`, which `lib/types.ts` defines; that file is not part of this model.
- AgentGraph.Wrap: a part's `text` is an optional string, so a non-string content cannot be carried under `text`. In JavaScript the old value (an array or an object) stays under `text` as it is; the model leaves `text` empty for such content.
- AgentGraph.NormalisedContent: a part whose `text` is neither a string nor missing cannot be represented. JavaScript's `join` would write its string conversion; the model reads every non-string text as "" (which `join` does write for `undefined` and `null`).
- ChatClient.FirstTextPart: a truthy non-string `text` cannot be represented either; JavaScript would pass it through `|| ""` into the request, where the model has "".
- The LangGraph runtime (`StateGraph`, `MemorySaver`, `streamEvents`), the `ChatGroq` model and the wxflows tools are foreign libraries. Model outcomes, the tool function and the graph events are inputs.
- `trimMessages` is left out: its code is not visible, and the prompt template that adds the system message is left out with it.
- `JSON.parse`, `JSON.stringify` and `String` are uninterpreted fields of `Runtime`; `Transmissible` states what the round-trip lemmas need of them.
- The persistence and `messages.send`/`messages.store` mutations, the Clerk `auth` call and `fetch` are opaque. What they return, or that they throw, is an input (`Outcomes`, `HttpOutcome`, the `store` parameter, `AuthResult`).
- `TextEncoder`/`TextDecoder`, `ReadableStream`/`TransformStream` and `releaseLock` are left out: chunks are modelled as strings. An empty read (`!value`) is not modelled, because parsing an empty chunk yields nothing anyway.
- A failed `writer.write` is not modelled: writes are taken to succeed. Only the close may fail.
- The fire-and-forget `startStream()` is modelled as a run that finishes before `Post` returns.
- `Date.now()` is a parameter: `createdAt` in `CreateChat`, and the optimistic and assistant ids in `HandleSubmit`.
- ChatClient.ChatInterface.HandleSubmit: all assistant messages of one submission get the same id, because the clock is one parameter.
- ChatClient.ChatInterface.HandleSubmit: the outcome of `messages.store` is one parameter for the whole submission, so every done message of a submission stores alike (all succeed, or each one fails the same way). Per-call outcomes are not modelled.
- The rendering, scrolling and the other components (ChatRow, MessageWelcome, Header, NavigationProvider, the dashboard layout) are left out. So is all console logging.
- Strings are sequences of code points, not UTF-16 units. The index `lastIndexOf` returns is counted in the same units as the slice, so the cut is unaffected.
- AgentGraph.AgentStep: the rate-limit answer is an object with only `content`. The model assumes the graph's message reducer accepts it as an AI message. That coercion lives in `@langchain/core`, which is not part of this model; if the library rejected the object, the turn would end with an error instead.
- TurnController.ToolEndName: the name a `ToolMessage` built from the output reports is not visible. The model states only that it is the output's truthy `name` field or "unknown".
- TurnController.ChunkText: for a chunk whose content is neither a string nor an array, the source calls `.at(0)` on a value that has no such method and throws. The throw is caught by the stream's `catch`, which ends the turn with one error frame. The model does not raise it from `ChunkText`, which returns no text for such content; that turn is expressed by the `events` ending before the chunk and the `iteration` outcome carrying the thrown error.
- AgentGraph.AddCachingHeaders: requires the listed objects to be pairwise distinct. Wrapping is not idempotent, so an object listed twice would be wrapped twice.
- Chats.ChatDb.ListChats: newest first is stated on document ids, which are handed out in creation order. Convex's `_creationTime` is not modelled separately.
- Chats.ChatDb.DeleteChat: the messages are deleted in an unspecified order, since the index's order is not observable in the final state. The `messages` table's own mutations live in a file that is not part of this model.
