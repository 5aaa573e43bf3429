# streamchatblocks: a verified model of the streaming chat core

This project models, in Dafny, the part of the streamchatblocks React
library that turns a server-sent event stream into a chat transcript:

- **the stream client** (`SSEClient`). It splits arbitrarily chunked text
  into lines with a carry-over buffer. It drops blank lines and classifies
  the rest by their `data: `, `event: ` or `id: ` prefix. It reads each
  frame's payload as a stream message (token, block, done or error), falling
  back to a plain-text token. It also holds the cancellation handle behind
  `disconnect` and `isConnected`.
- **the conversation assembler** (`ChatWindow`). It holds the message list,
  the `isStreaming` flag and the `currentStreamContent` token buffer.
  Sending appends a user turn and an empty assistant placeholder. Tokens
  grow the buffer. Blocks are appended to the assistant turn. `done` commits
  the buffer to the turn's text, and `error` drops it.
- **block dispatch** (`BlockRenderer`). A block is drawn by a registered
  renderer for its tag, else by one registered for a custom block's
  component type, else by a built-in, else by the "unsupported" panel.
- **the feedback block's submit rule** (`FeedbackBlock`). This covers the
  selected option, the free-text input, the submitted flag, the disabled
  button and the panel shown.

Files:

- `types.dfy`: the data model.
- `text.dfy`: `split('\n')`, its inverse, and `trim() === ''`.
- `sse_parse.dfy`: `parseSSELine` and `parseStreamMessage`.
- `sse_client.dfy`: the read loop, the `SSEClient` class and the hook's
  GET/POST choice.
- `chat_window.dfy`: the assembler, as pure transition functions plus the
  `ChatWindow` class whose handlers are proved to follow them.
- `block_renderer.dfy` and `feedback_block.dfy`: block dispatch and the
  feedback form.

The network is an input. A `Fetched` value describes the answer to a
request: a rejected fetch (aborted or not), or a response with its status, whether it
has a body, the already-decoded text chunks the reader delivered, and how
reading ended (end of stream, abort, or failure). `JSON.parse` is also an
input: a total function `decode` from payload text to an abstract `Json`
value (not JSON, `null`, a non-object value, or an object with the optional
fields `type`, `content`, `token`, `block`, `data`, `error`, `message`).
JavaScript's `a || b` on optional strings is modelled as "a if present and
non-empty, else b".

Where the intended design and the code differ, the model follows the code:

- Token, block and `done` messages are applied whether or not a reply is
  streaming. A block needs only that the last message is the assistant's.
- An `error` message drops the buffered token text. Text received before the
  error but not yet committed by `done` is lost, and the turn keeps only its
  blocks (`ChatWindow.PartialTextDroppedOnError`).
- The cancellation handle is not released when a stream completes or fails.
  `isConnected()` stays true until `disconnect()`. That is the only place a
  handle is aborted, so a session ended by an AbortError is one that
  `disconnect()` cut off. A new request replaces the handle without aborting
  the previous one.
- `event:` and `id:` lines are not ignored. Their empty payload fails
  `JSON.parse`, so each becomes an `onMessage` call with an empty token,
  which the assembler ignores (`SseParse.EventAndIdLinesAreEmptyTokens`).
- Only `\n` ends a line. A trailing `\r` stays in the payload, `data:`
  without the space is ignored, and blank lines do not delimit events.

## Model

| member | source | states |
|---|---|---|
| `Text.BlankIffTrimEmpty` | src/utils/sseClient.ts:56 | `line.trim() === ''`, with `trim` written out as removing leading and then trailing JavaScript whitespace, holds exactly when every character is whitespace (`Text.IsBlank`, also the test at src/components/blocks/FeedbackBlock.tsx:172) |
| `Text.Split` | src/utils/sseClient.ts:52 | `split('\n')` gives at least one part, no part holds a line feed, and joining the parts with line feeds gives the input back |
| `Text.SplitJoin` | src/utils/sseClient.ts:52 | splitting undoes joining, for parts without line feeds (the second half of the round trip) |
| `Text.LinesUnique` | src/utils/sseClient.ts:51-53 | any newline-free lines, each followed by `\n`, plus a newline-free tail that together make up a text are exactly that text's complete lines and remainder |
| `Text.LinesAndRemainder` | src/utils/sseClient.ts:52-53 | the complete lines, each with its `\n`, followed by the popped last part, reassemble the text |
| `SseParse.ParseSSELine` | src/utils/sseClient.ts:145-164 | a frame exists iff the line starts with `data: `, `event: ` or `id: `; a data frame's payload is the rest of the line; event and id frames keep the rest of the line in their own field and have an empty payload |
| `SseParse.FormatParseRoundTrip` | src/utils/sseClient.ts:145-164 | every field line a server writes (`data: X`, `event: X`, `id: X`) is read back as the frame for that field |
| `SseParse.BlankLineHasNoField` | src/utils/sseClient.ts:56-59 | an empty or whitespace-only line never carries a field, so dropping blank lines loses no message |
| `SseParse.Interpret` | src/utils/sseClient.ts:169-212 | the `type` field picks the message, each case both ways: `done`/`complete` give done; `block` a block (from `block`, else `data`); `error` an error (`error` or else `message`); `token` a token with `content`, or else `token`; unknown or missing types a token with `content`, or else the raw payload; a payload that is not a JSON object gives a token carrying the raw text; it never fails |
| `SseParse.ParseStreamMessage` | src/utils/sseClient.ts:169-171 | the payload goes through `JSON.parse`; a payload that does not parse to an object gives a token carrying the raw text; the result is done iff the parsed object's type is `done` or `complete`; a token without content only comes from an object |
| `SseParse.InterpretToWire` | src/utils/sseClient.ts:174-199 | reading the object a server sends for a message (with non-empty content, block or error text) gives that message back |
| `SseParse.WireRoundTrip` | src/utils/sseClient.ts:146-199 | a `data: ` line whose payload parses to the server's encoding of a message yields exactly that message |
| `SseParse.PlainTextIsToken` | src/utils/sseClient.ts:206-211 | a payload that is not JSON, or is JSON `null`, becomes a token whose content is exactly the raw payload |
| `SseParse.EventAndIdLinesAreEmptyTokens` | src/utils/sseClient.ts:151-162 | an `event:` or `id:` line becomes a token with empty content, because the empty payload is not JSON |
| `SseClient.RequestFor` | src/utils/sseClient.ts:22-97 | the fetch options of `connect` (lines 22-29) and `postAndStream` (lines 88-97): POST when there is a body, GET otherwise; `Accept: text/event-stream` (and `Content-Type: application/json` for POST) unless the caller's headers override it; caller headers always win |
| `SseClient.SessionEvents` | src/utils/sseClient.ts:19-71 | the callbacks of one whole `connect`/`postAndStream` session; the session ends without a terminal callback (nothing, or a message last) exactly when an AbortError cut it off |
| `SseClient.LineEvents` | src/utils/sseClient.ts:55-64 | a complete line produces one `onMessage` iff it is not blank and carries a known prefix, and none otherwise; that message is the one its frame's payload parses to |
| `SseClient.Dispatch` | src/utils/sseClient.ts:55-65 | the lines of one read produce at most one callback each, and every one is an `onMessage` |
| `SseClient.DispatchCountsFieldLines` | src/utils/sseClient.ts:55-65 | exactly one `onMessage` per non-blank prefixed line, in line order |
| `SseClient.DispatchLines` | src/utils/sseClient.ts:55-65 | the inner loop over the lines of one read produces exactly the dispatch of those lines |
| `SseClient.CarryOver` | src/utils/sseClient.ts:51-53 | after each chunk, the lines emitted so far, each followed by `\n`, plus the newline-free buffer equal the concatenation of all chunks received |
| `SseClient.ReadStream` | src/utils/sseClient.ts:40-66 | the read loop reports exactly the messages of the complete lines of the concatenated chunks, in order; then `onComplete` at end of stream, `onError` for a failed read, nothing after an abort; an unterminated last line is never parsed |
| `SseClient.ChunkBoundariesInvisible` | src/utils/sseClient.ts:51-53 | two chunkings of the same text produce the same callbacks, so `data: hel` + `lo\n` reads as `data: hello\n` |
| `SseClient.UnterminatedTailDropped` | src/utils/sseClient.ts:44-53 | a last chunk without a line feed adds no complete line and only lengthens the carried-over buffer, also when the unfinished line began in an earlier chunk, so text after the last line feed is never parsed |
| `SseClient.SessionTermination` | src/utils/sseClient.ts:31-71 | only the last callback of a session can be terminal; `onComplete` comes iff the stream reached its end; `onError` comes iff the request failed (status, missing body, transport) other than by an abort |
| `SseClient.RejectedResponseReportsOnce` | src/utils/sseClient.ts:31-38 | a non-ok status or a missing body gives one `onError` and no `onMessage` |
| `SseClient.SSEClient.constructor` | src/utils/sseClient.ts:7 | a new client has no handle and is not connected |
| `SseClient.SSEClient.IsConnected` | src/utils/sseClient.ts:228-230 | connected exactly while a handle is installed; `Stream`, `Connect`, `PostAndStream`, `Disconnect` and `StartStream` state its value after each of them |
| `SseClient.SSEClient.Stream` | src/utils/sseClient.ts:19-71 | a request installs a fresh handle; a session that completes or fails leaves it installed and unaborted; a session ended by an AbortError was cut off by `disconnect()`, so afterwards there is no handle; its callbacks are the session's events |
| `SseClient.SSEClient.Connect` | src/utils/sseClient.ts:12-72 | `connect` issues a GET, reports the session's events, and leaves the handle as `Stream` does |
| `SseClient.SSEClient.PostAndStream` | src/utils/sseClient.ts:77-140 | `postAndStream` issues a POST of the body, reports the session's events like a GET, and leaves the handle as `Stream` does |
| `SseClient.SSEClient.Disconnect` | src/utils/sseClient.ts:218-223 | the previous handle, if any, is aborted, and afterwards there is no handle, so `isConnected()` is false |
| `SseClient.StartStream` | src/hooks/useSSEStream.ts:27-53 | the hook POSTs when it has data and GETs otherwise; afterwards the client is connected unless the session was cut off by `disconnect()` |
| `ChatWindow.OnStreamMessage` | src/components/ChatWindow.tsx:52-90 | the list keeps its length and only the last message can change; when the last message is not the assistant's, a block or `done` leaves the list unchanged; tokens grow the buffer by their non-empty content and leave messages alone; `done` and `error` empty the buffer and end streaming; `error` leaves messages alone |
| `ChatWindow.OnlyLastMessageChanges` | src/components/ChatWindow.tsx:57-81 | over any sequence of callbacks, the list length and every message but the last are unchanged |
| `ChatWindow.CallbacksNeverStartStreaming` | src/components/ChatWindow.tsx:84-101 | no stream callback turns streaming on; only sending does |
| `ChatWindow.TokensAccumulate` | src/components/ChatWindow.tsx:53-54 | tokens t1..tn leave the messages unchanged and grow the buffer by exactly t1+...+tn |
| `ChatWindow.DoneCommitsTokens` | src/components/ChatWindow.tsx:68-84 | tokens t1..tn then `done` append t1+...+tn to the assistant turn's existing text (append, not replace), empty the buffer and end streaming |
| `ChatWindow.DoneIdempotent` | src/components/ChatWindow.tsx:68-84 | a second `done` straight after the first changes nothing |
| `ChatWindow.BlocksKeepArrivalOrder` | src/components/ChatWindow.tsx:55-67 | over any interleaving of tokens and blocks, the assistant turn's blocks grow by exactly the arriving blocks in order, and nothing else about it changes |
| `ChatWindow.ErrorKeepsPartialReply` | src/components/ChatWindow.tsx:85-89 | `error` keeps the messages (blocks included), empties the buffer, ends streaming and reports its text, or `Unknown error` when it has none |
| `ChatWindow.SessionEndEnablesInput` | src/components/ChatWindow.tsx:94-101 | every session that is not aborted ends with streaming off, so the input is enabled again |
| `ChatWindow.AspirinScenario` | src/components/ChatWindow.tsx:52-84 | `Aspirin `, `relieves pain.`, a drug block, then `done` give the turn the text `Aspirin relieves pain.` and that one block |
| `ChatWindow.PartialTextDroppedOnError` | src/components/ChatWindow.tsx:85-89 | a token then an `error` leave the assistant turn's text empty and report the error text |
| `ChatWindow.ChatWindow.constructor` | src/components/ChatWindow.tsx:24-26 | the initial messages, not streaming, empty buffer, and a client with no handle |
| `ChatWindow.ChatWindow.InputDisabled` | src/components/ChatWindow.tsx:186 | the input is disabled exactly while the assembler state is streaming |
| `ChatWindow.ChatWindow.HandleStreamMessage` | src/components/ChatWindow.tsx:52-90 | the handler leaves exactly the state `OnStreamMessage` gives and reports the `error` text |
| `ChatWindow.ChatWindow.HandleTransportError` | src/components/ChatWindow.tsx:94-98 | a transport error is reported, streaming ends and the buffer empties; messages unchanged |
| `ChatWindow.ChatWindow.HandleComplete` | src/components/ChatWindow.tsx:99-101 | completion only ends streaming |
| `ChatWindow.ChatWindow.HandleCallback` | src/components/ChatWindow.tsx:92-103 | each client callback reaches its handler |
| `ChatWindow.ChatWindow.HandleSendMessage` | src/components/ChatWindow.tsx:105-140 | sending appends the user turn and an empty assistant turn, starts streaming with an empty buffer, POSTs the text with the earlier history, then applies every callback in order and reports every error; after a session not cut off by `disconnect()` the input is enabled again |
| `BlockRenderer.SelectRenderer` | src/components/BlockRenderer.tsx:13-45 | a registry entry for the tag wins; otherwise a custom block's registered component type; otherwise `text`/`drug`/`feedback`/`chatresponse` get their built-in; everything else is unsupported; each case stated both ways |
| `BlockRenderer.RegistrationOverrides` | src/components/BlockRenderer.tsx:15-18 | registering a renderer for a tag makes it the choice for every block with that tag |
| `BlockRenderer.OnlyRelevantEntriesMatter` | src/components/BlockRenderer.tsx:15-26 | registries that agree on the block's tag and component type choose the same rendering |
| `BlockRenderer.CommunityBlocksNeedRegistration` | src/components/BlockRenderer.tsx:29-43 | without a registry, `table`, `chart` and every `custom` block fall to the unsupported panel |
| `FeedbackBlock.PanelFor` | src/components/blocks/FeedbackBlock.tsx:15-60 | the warning panel iff there is no question; the thank-you panel iff there is a question and the block was submitted |
| `FeedbackBlock.SubmitDisabled` | src/components/blocks/FeedbackBlock.tsx:172 | disabled when nothing is selected or the free-text option has only whitespace; an enabled button always has non-empty feedback to send |
| `FeedbackBlock.GuardWeakerThanButton` | src/components/blocks/FeedbackBlock.tsx:35-41 | for every non-empty whitespace-only free text (one space is one), the button is disabled but the handler would send it |
| `FeedbackBlock.OptionNamedCustomSendsTypedText` | src/components/blocks/FeedbackBlock.tsx:36 | an option literally named `custom` submits the typed text, not its own name |
| `FeedbackBlock.FeedbackForm.constructor` | src/components/blocks/FeedbackBlock.tsx:10-13 | nothing selected, no text, not submitted; the form, or the warning without a question |
| `FeedbackBlock.FeedbackForm.ChooseOption` | src/components/blocks/FeedbackBlock.tsx:105-110 | choosing an option selects its value and changes nothing else |
| `FeedbackBlock.FeedbackForm.ChooseCustom` | src/components/blocks/FeedbackBlock.tsx:134-139 | choosing the free-text option selects `custom` |
| `FeedbackBlock.FeedbackForm.EditCustomInput` | src/components/blocks/FeedbackBlock.tsx:147-151 | typing replaces the free text |
| `FeedbackBlock.FeedbackForm.HandleSubmit` | src/components/blocks/FeedbackBlock.tsx:35-41 | the feedback is the free text for `custom`, else the option; it is sent, and the block marked submitted, only when non-empty; otherwise nothing changes; `submitted` never returns to false |
| `FeedbackBlock.FeedbackForm.PressSubmit` | src/components/blocks/FeedbackBlock.tsx:170-172 | a click submits iff the form is shown and the button enabled, and then the thank-you panel is shown |

## Left out

- Byte I/O: `fetch`, `getReader()` and streaming UTF-8 decoding with `TextDecoder`. Chunks arrive as already-decoded strings, and the decoder is not flushed at the end.
- `JSON.parse` is not modelled. It is an input function from payload text to a `Json` value. Object fields holding values of other JSON types (a numeric `content`, a falsy non-object `block`) are not modelled.
- Concurrency and cancellation timing. The effect of a `disconnect()` that cuts a session off is modelled at that session's end. How it interleaves with a newer request that has already replaced the handle is not modelled.
- Exceptions thrown by the caller's `onMessage` inside the read loop are not modelled. The client's `catch` would report them through `onError`. Thrown values that are not `Error` objects, which the client swallows, are not modelled either.
- React lifecycle of src/hooks/useSSEStream.ts: creating the client in an effect, disconnecting on unmount, and the `stopStream`/`isConnected` wrappers.
- `ChatWindow.ChatWindow.HandleSendMessage`: the model applies callbacks one after another, each seeing the latest state. In the source, the `done` branch (src/components/ChatWindow.tsx:70-76) reads `currentStreamContent` from the closure of the render that started the stream, rather than through a state updater. Under React's closure semantics it can therefore see a stale, empty buffer. That render-timing behaviour and state-update batching are not modelled.
- `ChatWindow.ChatWindow.HandleSendMessage`: one clock reading `now` stands for both `Date.now()` calls. The user id is `now` and the assistant id is `now + 1`. Ids are that number rather than its decimal string, and both timestamps are `now`.
- `ChatWindow.ChatWindow.HandleSendMessage`: the `onMessageSent` notification is not modelled. Neither is the `catch` around `startStream`. It is reachable only when the `onError` prop itself throws inside the client's `catch`, and that is not modelled.
- Message `metadata` and the parts of a block's `data` that the core never reads.
- Rendering: JSX, styles, scrolling, the streaming cursor and "thinking" indicator, src/components/Message.tsx, and the built-in and community block components (TextBlock, DrugBlock, ChatResponseBlock, TableBlock, ChartBlock).
- `BlockRenderer.SelectRenderer`: the map lookup is modelled, not the renderer call. A registry entry whose value is `undefined` (which would draw nothing) is not modelled, and an absent registry is the empty map.
- The feedback block drawn by the built-in path receives no `onSubmit`. `FeedbackBlock.FeedbackForm.HandleSubmit` returns what it would pass to one.
- The Python demo backends. Their `data: {json}` lines are represented by `SseParse.ToWire` and `SseParse.WireRoundTrip`.
