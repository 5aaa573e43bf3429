/**
 * The conversation assembler of src/components/ChatWindow.tsx: the message
 * list, the `isStreaming` flag and the `currentStreamContent` token buffer,
 * and the handlers that step them as the user sends text and the stream
 * client reports messages, errors and completion.
 *
 * The pure functions below give the state each handler leaves behind; the
 * `ChatWindow` class holds the three pieces of state and its methods are
 * proved to follow them.
 */
module ChatWindow {
  import opened Types
  import opened Text
  import opened SseParse
  import opened SseClient

  datatype ChatState = ChatState(messages: seq<Message>, isStreaming: bool, streamBuffer: string)

  predicate LastIsAssistant(msgs: seq<Message>) {
    |msgs| > 0 && msgs[|msgs| - 1].role == Assistant
  }

  function Last(msgs: seq<Message>): Message
    requires |msgs| > 0
  {
    msgs[|msgs| - 1]
  }

  /** `lastMessage.blocks || []`. */
  function BlocksOf(m: Message): seq<ResponseBlock> {
    if m.blocks.Some? then m.blocks.value else []
  }

  /** `[...prev.slice(0, -1), updated]`. */
  function WithLast(msgs: seq<Message>, updated: Message): (r: seq<Message>)
    requires |msgs| > 0
    ensures |r| == |msgs| && r[|r| - 1] == updated
    ensures forall i :: 0 <= i < |msgs| - 1 ==> r[i] == msgs[i]
  {
    msgs[..|msgs| - 1] + [updated]
  }

  /** The block updater: extend the last message's blocks if it is the assistant's. */
  function AppendBlock(msgs: seq<Message>, b: ResponseBlock): seq<Message> {
    if LastIsAssistant(msgs) then
      var last := Last(msgs);
      WithLast(msgs, last.(blocks := Some(BlocksOf(last) + [b])))
    else msgs
  }

  /** The `done` updater: append `text` to the last message if it is the assistant's. */
  function CommitText(msgs: seq<Message>, text: string): seq<Message> {
    if LastIsAssistant(msgs) then
      var last := Last(msgs);
      WithLast(msgs, last.(content := last.content + text))
    else msgs
  }

  /**
   * `handleStreamMessage`. Only the last message can change, and only on a
   * block or `done`; `done` and `error` both empty the buffer and end streaming;
   * tokens and blocks leave the streaming flag alone.
   */
  function OnStreamMessage(s: ChatState, m: StreamMessage): (r: ChatState)
    ensures |r.messages| == |s.messages|
    ensures forall i :: 0 <= i < |s.messages| - 1 ==> r.messages[i] == s.messages[i]
    ensures !m.Block? && !m.Done? ==> r.messages == s.messages
    ensures !LastIsAssistant(s.messages) ==> r.messages == s.messages
    ensures m.Done? || m.Error? ==> r.streamBuffer == "" && !r.isStreaming
    ensures m.Token? || m.Block? ==> r.isStreaming == s.isStreaming
    ensures m.Block? ==> r.streamBuffer == s.streamBuffer
    ensures m.Token? ==> r.streamBuffer == s.streamBuffer + (if Truthy(m.content) then m.content.value else "")
  {
    match m
    case Token(content) =>
      if Truthy(content) then s.(streamBuffer := s.streamBuffer + content.value) else s
    case Block(block) =>
      if block.Some? then s.(messages := AppendBlock(s.messages, block.value)) else s
    case Done =>
      var msgs := if s.streamBuffer != "" then CommitText(s.messages, s.streamBuffer) else s.messages;
      ChatState(msgs, false, "")
    case Error(_) =>
      s.(streamBuffer := "", isStreaming := false)
  }

  /** What an `error` message hands to the `onError` prop. */
  function ReportOf(m: StreamMessage): Option<ErrorCause> {
    if m.Error? then Some(Remote(if Truthy(m.error) then m.error.value else "Unknown error")) else None
  }

  /** The transport `onError` handler: stop streaming and drop the buffer. */
  function OnTransportError(s: ChatState): ChatState {
    s.(isStreaming := false, streamBuffer := "")
  }

  /** The transport `onComplete` handler: stop streaming. */
  function OnTransportComplete(s: ChatState): ChatState {
    s.(isStreaming := false)
  }

  /** The effect of one client callback on the conversation. */
  function Deliver(s: ChatState, cb: Callback): ChatState {
    match cb
    case OnMessage(m) => OnStreamMessage(s, m)
    case OnError(_) => OnTransportError(s)
    case OnComplete => OnTransportComplete(s)
  }

  /** The error, if any, one client callback hands to the `onError` prop. */
  function ReportFor(cb: Callback): Option<ErrorCause> {
    match cb
    case OnMessage(m) => ReportOf(m)
    case OnError(cause) => Some(cause)
    case OnComplete => None
  }

  /** The conversation after a sequence of callbacks, applied in order. */
  function Run(s: ChatState, cbs: seq<Callback>): ChatState {
    if cbs == [] then s else Deliver(Run(s, cbs[..|cbs| - 1]), cbs[|cbs| - 1])
  }

  /** Every error handed to the `onError` prop during a sequence of callbacks, in order. */
  function Reports(cbs: seq<Callback>): seq<ErrorCause> {
    if cbs == [] then []
    else
      var r := ReportFor(cbs[|cbs| - 1]);
      Reports(cbs[..|cbs| - 1]) + (if r.Some? then [r.value] else [])
  }

  /** The user turn and the empty assistant placeholder `handleSendMessage` appends. */
  function Turns(content: string, now: int): seq<Message> {
    [Message(now, User, content, now, None), Message(now + 1, Assistant, "", now, Some([]))]
  }

  /** The conversation once `handleSendMessage` has set it up for the reply. */
  function Sent(s: ChatState, content: string, now: int): ChatState {
    ChatState(s.messages + Turns(content, now), true, "")
  }

  /** A token message per fragment. */
  function Tokens(fragments: seq<string>): (cbs: seq<Callback>)
    ensures |cbs| == |fragments|
    ensures forall i :: 0 <= i < |cbs| ==> cbs[i] == OnMessage(Token(Some(fragments[i])))
  {
    if fragments == [] then []
    else Tokens(fragments[..|fragments| - 1]) + [OnMessage(Token(Some(fragments[|fragments| - 1])))]
  }

  lemma {:induction false} RunAppend(s: ChatState, a: seq<Callback>, b: seq<Callback>)
    ensures Run(s, a + b) == Run(Run(s, a), b)
  {
    if b == [] {
      assert a + b == a;
    } else {
      RunAppend(s, a, b[..|b| - 1]);
      assert (a + b)[..|a + b| - 1] == a + b[..|b| - 1];
    }
  }

  /**
   * However many callbacks arrive, the message list keeps its length and
   * every message but the last stays as it was.
   */
  lemma {:induction false} OnlyLastMessageChanges(s: ChatState, cbs: seq<Callback>)
    ensures |Run(s, cbs).messages| == |s.messages|
    ensures forall i :: 0 <= i < |s.messages| - 1 ==> Run(s, cbs).messages[i] == s.messages[i]
  {
    if cbs != [] {
      OnlyLastMessageChanges(s, cbs[..|cbs| - 1]);
    }
  }

  /** Callbacks never start streaming; only sending does. */
  lemma {:induction false} CallbacksNeverStartStreaming(s: ChatState, cbs: seq<Callback>)
    ensures Run(s, cbs).isStreaming ==> s.isStreaming
  {
    if cbs != [] {
      CallbacksNeverStartStreaming(s, cbs[..|cbs| - 1]);
    }
  }

  /** Tokens only grow the buffer, by exactly their fragments in order. */
  lemma {:induction false} TokensAccumulate(s: ChatState, fragments: seq<string>)
    ensures Run(s, Tokens(fragments)) == s.(streamBuffer := s.streamBuffer + Concat(fragments))
  {
    if fragments == [] {
      assert s.streamBuffer + "" == s.streamBuffer;
    } else {
      var init := fragments[..|fragments| - 1];
      TokensAccumulate(s, init);
      assert Tokens(fragments)[..|fragments| - 1] == Tokens(init);
      assert s.streamBuffer + Concat(init) + fragments[|fragments| - 1] == s.streamBuffer + Concat(fragments);
    }
  }

  /**
   * For tokens t1..tn followed by `done`, the assistant turn's text grows by
   * exactly t1 + ... + tn, the buffer empties and streaming ends.
   */
  lemma DoneCommitsTokens(s: ChatState, fragments: seq<string>)
    requires LastIsAssistant(s.messages) && s.streamBuffer == ""
    ensures var last := Last(s.messages);
      Run(s, Tokens(fragments) + [OnMessage(Done)])
        == ChatState(WithLast(s.messages, last.(content := last.content + Concat(fragments))), false, "")
  {
    var mid := Run(s, Tokens(fragments));
    assert mid == s.(streamBuffer := Concat(fragments)) by {
      TokensAccumulate(s, fragments);
      assert "" + Concat(fragments) == Concat(fragments);
    }
    RunAppend(s, Tokens(fragments), [OnMessage(Done)]);
    assert Run(mid, [OnMessage(Done)]) == OnStreamMessage(mid, Done) by {
      assert [OnMessage(Done)][..0] == [];
    }
    var last := Last(s.messages);
    if Concat(fragments) == "" {
      assert last.(content := last.content + "") == last;
      assert WithLast(s.messages, last) == s.messages;
    }
  }

  /** A second `done` straight after the first changes nothing. */
  lemma DoneIdempotent(s: ChatState)
    ensures OnStreamMessage(OnStreamMessage(s, Done), Done) == OnStreamMessage(s, Done)
  {
  }

  /** Callbacks of an open reply: tokens and blocks. */
  predicate IsContent(cb: Callback) {
    cb.OnMessage? && (cb.message.Token? || cb.message.Block?)
  }

  /** The blocks a sequence of callbacks carries, in arrival order. */
  function BlocksIn(cbs: seq<Callback>): seq<ResponseBlock> {
    if cbs == [] then []
    else
      var cb := cbs[|cbs| - 1];
      BlocksIn(cbs[..|cbs| - 1])
        + (if cb.OnMessage? && cb.message.Block? && cb.message.block.Some? then [cb.message.block.value] else [])
  }

  /**
   * Blocks are appended to the assistant turn in arrival order, whatever
   * tokens are interleaved with them, and they do not touch its text.
   */
  lemma {:induction false} BlocksKeepArrivalOrder(s: ChatState, cbs: seq<Callback>)
    requires LastIsAssistant(s.messages)
    requires forall i :: 0 <= i < |cbs| ==> IsContent(cbs[i])
    ensures var r := Run(s, cbs);
      && LastIsAssistant(r.messages)
      && Last(r.messages) == Last(s.messages).(blocks := Last(r.messages).blocks)
      && BlocksOf(Last(r.messages)) == BlocksOf(Last(s.messages)) + BlocksIn(cbs)
      && r.isStreaming == s.isStreaming
  {
    if cbs == [] {
      var last := Last(s.messages);
      assert last.(blocks := last.blocks) == last;
    } else {
      var init := cbs[..|cbs| - 1];
      BlocksKeepArrivalOrder(s, init);
      OnlyLastMessageChanges(s, init);
      var cb := cbs[|cbs| - 1];
      var before := Run(s, init);
      assert IsContent(cb);
      if cb.message.Block? && cb.message.block.Some? {
        assert BlocksOf(Last(s.messages)) + BlocksIn(init) + [cb.message.block.value]
            == BlocksOf(Last(s.messages)) + BlocksIn(cbs);
      } else {
        assert BlocksIn(cbs) == BlocksIn(init);
      }
    }
  }

  /**
   * An `error` message keeps the partial reply as it is (text and blocks),
   * empties the buffer, ends streaming and reports its text, or
   * "Unknown error" when it has none.
   */
  lemma ErrorKeepsPartialReply(s: ChatState, error: Option<string>)
    ensures OnStreamMessage(s, Error(error)) == ChatState(s.messages, false, "")
    ensures ReportOf(Error(error)) == Some(Remote(if Truthy(error) then error.value else "Unknown error"))
  {
  }

  /**
   * A session that is not aborted ends in a completion or an error, so the
   * conversation leaves the streaming state and the input is enabled again.
   */
  lemma SessionEndEnablesInput(s: ChatState, fetched: Fetched, decode: string -> Json)
    requires !EndsInAbort(fetched)
    ensures !Run(s, SessionEvents(fetched, decode)).isStreaming
  {
    var events := SessionEvents(fetched, decode);
    SessionTermination(fetched, decode);
    if fetched.Responded? && fetched.ok && fetched.hasBody {
      assert events[|events| - 1] == (if fetched.end == EndOfStream then OnComplete
                                      else OnError(Network(fetched.end.reason)));
    }
  }

  /** The scenario of a reply with two tokens, a drug block and `done`. */
  lemma AspirinScenario(s: ChatState, drug: ResponseBlock)
    requires s.messages == Turns("What is aspirin used for?", 0) && s.isStreaming && s.streamBuffer == ""
    ensures var r := Run(s, [OnMessage(Token(Some("Aspirin "))), OnMessage(Token(Some("relieves pain."))),
                             OnMessage(Block(Some(drug))), OnMessage(Done)]);
      && |r.messages| == 2 && !r.isStreaming && r.streamBuffer == ""
      && r.messages[1].content == "Aspirin relieves pain."
      && r.messages[1].blocks == Some([drug])
  {
    var t1, t2 := OnMessage(Token(Some("Aspirin "))), OnMessage(Token(Some("relieves pain.")));
    var cbs := [t1, t2, OnMessage(Block(Some(drug))), OnMessage(Done)];
    assert cbs[..3][..2][..1][..0] == [];
    assert cbs[..3][..2][..1] == [t1];
    assert cbs[..3][..2] == [t1, t2];
    assert [t1, t2][..1] == [t1] && [t1][..0] == [];
    var s1 := Run(s, [t1]);
    assert "" + "Aspirin " == "Aspirin ";
    assert Run(s, []) == s;
    assert s1 == OnStreamMessage(s, Token(Some("Aspirin ")));
    assert s1 == s.(streamBuffer := "Aspirin ");
    var s2 := Run(s, [t1, t2]);
    assert s2 == Deliver(s1, t2);
    assert "Aspirin " + "relieves pain." == "Aspirin relieves pain.";
    assert s2 == s.(streamBuffer := "Aspirin relieves pain.");
    assert LastIsAssistant(s2.messages) && BlocksOf(Last(s2.messages)) == [];
    assert [] + [drug] == [drug];
    var s3 := Deliver(s2, OnMessage(Block(Some(drug))));
    assert s3.messages[1] == s.messages[1].(blocks := Some([drug]));
  }

  /**
   * Tokens are committed only by `done`: when an `error` follows a partial
   * reply, the buffered text is dropped and the assistant turn keeps only what
   * it held before (here, nothing), while the error text is reported.
   */
  lemma PartialTextDroppedOnError(s: ChatState, partial: string)
    requires s.messages == Turns("What is aspirin used for?", 0) && s.isStreaming && s.streamBuffer == ""
    ensures var cbs := [OnMessage(Token(Some(partial))), OnMessage(Error(Some("upstream failed")))];
      && Run(s, cbs) == ChatState(s.messages, false, "")
      && Run(s, cbs).messages[1].content == ""
      && Reports(cbs) == [Remote("upstream failed")]
  {
    var cbs := [OnMessage(Token(Some(partial))), OnMessage(Error(Some("upstream failed")))];
    assert cbs[..1] == [OnMessage(Token(Some(partial)))] && cbs[..1][..0] == [];
    assert Run(s, []) == s && Reports([]) == [];
    assert Run(s, cbs[..1]) == OnStreamMessage(s, Token(Some(partial)));
    assert Reports(cbs[..1]) == [];
    assert Truthy(Some("upstream failed"));
  }

  /** `ChatWindow`: the conversation state and its stream client. */
  class ChatWindow {
    var messages: seq<Message>
    var isStreaming: bool
    var currentStreamContent: string
    const client: SSEClient
    const streamUrl: string
    const headers: map<string, string>

    /** Mounting with `initialMessages`; the stream URL is base address plus stream path. */
    constructor (initialMessages: seq<Message>, baseUrl: string, streamEndpoint: string,
                 headers: map<string, string>)
      ensures State() == ChatState(initialMessages, false, "") && !InputDisabled()
      ensures fresh(client) && !client.IsConnected()
      ensures streamUrl == baseUrl + streamEndpoint && this.headers == headers
    {
      messages := initialMessages;
      isStreaming := false;
      currentStreamContent := "";
      client := new SSEClient();
      streamUrl := baseUrl + streamEndpoint;
      this.headers := headers;
    }

    function State(): ChatState
      reads this
    {
      ChatState(messages, isStreaming, currentStreamContent)
    }

    /** `disabled={isStreaming}` on the input: disabled while a reply streams. */
    predicate InputDisabled()
      reads this
      ensures InputDisabled() <==> State().isStreaming
    {
      isStreaming
    }

    /** `handleStreamMessage`, returning the error it hands to `onError`, if any. */
    method HandleStreamMessage(m: StreamMessage) returns (reported: Option<ErrorCause>)
      modifies this
      ensures State() == OnStreamMessage(old(State()), m)
      ensures reported == ReportOf(m)
    {
      reported := None;
      match m
      case Token(content) =>
        if Truthy(content) {
          currentStreamContent := currentStreamContent + content.value;
        }
      case Block(block) =>
        if block.Some? {
          messages := AppendBlock(messages, block.value);
        }
      case Done =>
        if currentStreamContent != "" {
          messages := CommitText(messages, currentStreamContent);
        }
        currentStreamContent := "";
        isStreaming := false;
      case Error(error) =>
        reported := Some(Remote(if Truthy(error) then error.value else "Unknown error"));
        currentStreamContent := "";
        isStreaming := false;
    }

    /** The `onError` handler given to the stream hook. */
    method HandleTransportError(cause: ErrorCause) returns (reported: ErrorCause)
      modifies this
      ensures State() == OnTransportError(old(State())) && reported == cause
    {
      reported := cause;
      isStreaming := false;
      currentStreamContent := "";
    }

    /** The `onComplete` handler given to the stream hook. */
    method HandleComplete()
      modifies this
      ensures State() == OnTransportComplete(old(State()))
    {
      isStreaming := false;
    }

    /** One callback from the stream client, routed to its handler. */
    method HandleCallback(cb: Callback) returns (reported: Option<ErrorCause>)
      modifies this
      ensures State() == Deliver(old(State()), cb) && reported == ReportFor(cb)
    {
      match cb
      case OnMessage(m) =>
        reported := HandleStreamMessage(m);
      case OnError(cause) =>
        var r := HandleTransportError(cause);
        reported := Some(r);
      case OnComplete =>
        HandleComplete();
        reported := None;
    }

    /**
     * `handleSendMessage`: append the user turn and the empty assistant
     * placeholder, start streaming with an empty buffer, POST the text with the
     * history as it was before this turn, and apply every callback of the
     * session in order. `now` is the clock reading the ids and timestamps come from.
     */
    method HandleSendMessage(content: string, now: int, fetched: Fetched, decode: string -> Json)
      returns (request: Request, reports: seq<ErrorCause>)
      modifies this, client
      ensures request == RequestFor(streamUrl, Some(ChatRequest(content, old(messages))), headers)
      ensures State() == Run(Sent(old(State()), content, now), SessionEvents(fetched, decode))
      ensures reports == Reports(SessionEvents(fetched, decode))
      ensures !EndsInAbort(fetched) ==> fresh(client.controller) && !client.controller.aborted && client.IsConnected()
      ensures EndsInAbort(fetched) ==> client.controller == null && !client.IsConnected()
      ensures !EndsInAbort(fetched) ==> !InputDisabled()
    {
      var history := messages;
      messages := messages + [Message(now, User, content, now, None)];
      messages := messages + [Message(now + 1, Assistant, "", now, Some([]))];
      isStreaming := true;
      currentStreamContent := "";
      ghost var sent := State();
      assert sent == Sent(old(State()), content, now);
      var events;
      request, events := StartStream(client, streamUrl, Some(ChatRequest(content, history)), headers, fetched, decode);
      reports := [];
      var i := 0;
      while i < |events|
        invariant 0 <= i <= |events|
        invariant State() == Run(sent, events[..i])
        invariant reports == Reports(events[..i])
        invariant !EndsInAbort(fetched) ==> fresh(client.controller) && !client.controller.aborted && client.IsConnected()
        invariant EndsInAbort(fetched) ==> client.controller == null && !client.IsConnected()
      {
        var reported := HandleCallback(events[i]);
        if reported.Some? {
          reports := reports + [reported.value];
        }
        assert events[..i + 1][..i] == events[..i];
        i := i + 1;
      }
      assert events[..i] == events;
      if !EndsInAbort(fetched) {
        SessionEndEnablesInput(sent, fetched, decode);
      }
    }
  }
}
