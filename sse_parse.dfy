/**
 * The two pure steps of the stream client (src/utils/sseClient.ts):
 * classifying one wire line into a frame (`parseSSELine`) and reading one
 * frame's payload as a stream message (`parseStreamMessage`).
 *
 * `JSON.parse` is not modelled; a payload is seen through the `Json` value it
 * parses to, supplied by the caller as a total function `decode`.
 */
module SseParse {
  import opened Types
  import opened Text

  const DataPrefix: string := "data: "
  const EventPrefix: string := "event: "
  const IdPrefix: string := "id: "

  predicate HasFieldPrefix(line: string) {
    StartsWith(line, DataPrefix) || StartsWith(line, EventPrefix) || StartsWith(line, IdPrefix)
  }

  /** One wire line of the subset this client understands, as a server writes it. */
  datatype Field = DataField(value: string) | EventField(value: string) | IdField(value: string)

  function FormatField(f: Field): string {
    match f
    case DataField(v) => DataPrefix + v
    case EventField(v) => EventPrefix + v
    case IdField(v) => IdPrefix + v
  }

  /** The frame the client builds for a field: only `data:` lines carry a payload. */
  function FrameOf(f: Field): SSEEvent {
    match f
    case DataField(v) => SSEEvent(None, v, None)
    case EventField(v) => SSEEvent(Some(v), "", None)
    case IdField(v) => SSEEvent(None, "", Some(v))
  }

  /**
   * `parseSSELine`: a line with a `data: `, `event: ` or `id: ` prefix (the
   * space included) becomes a frame that records the rest of the line; any
   * other line is ignored.
   */
  function ParseSSELine(line: string): (frame: Option<SSEEvent>)
    ensures frame.Some? <==> HasFieldPrefix(line)
    ensures frame.Some? && frame.value.event.None? && frame.value.id.None? ==>
              line == DataPrefix + frame.value.data
    ensures frame.Some? && frame.value.event.Some? ==>
              frame.value.id.None? && frame.value.data == "" && line == EventPrefix + frame.value.event.value
    ensures frame.Some? && frame.value.id.Some? ==>
              frame.value.event.None? && frame.value.data == "" && line == IdPrefix + frame.value.id.value
  {
    if StartsWith(line, DataPrefix) then
      assert line == DataPrefix + line[6..];
      Some(SSEEvent(None, line[6..], None))
    else if StartsWith(line, EventPrefix) then
      assert line == EventPrefix + line[7..];
      Some(SSEEvent(Some(line[7..]), "", None))
    else if StartsWith(line, IdPrefix) then
      assert line == IdPrefix + line[4..];
      Some(SSEEvent(None, "", Some(line[4..])))
    else
      None
  }

  /** Every field a server writes is read back as the frame it stands for. */
  lemma FormatParseRoundTrip(f: Field)
    ensures ParseSSELine(FormatField(f)) == Some(FrameOf(f))
  {
    var line := FormatField(f);
    match f
    case DataField(v) =>
      assert line[..6] == DataPrefix;
    case EventField(v) =>
      assert line[..7] == EventPrefix;
      assert line[0] == 'e';
    case IdField(v) =>
      assert line[..4] == IdPrefix;
      assert line[0] == 'i';
  }

  /** A line that is empty or all whitespace carries no field. */
  lemma BlankLineHasNoField(line: string)
    requires IsBlank(line)
    ensures ParseSSELine(line) == None
  {
    if line != [] {
      assert IsWhitespace(line[0]);
    }
  }

  /**
   * The result of `JSON.parse` on a payload, as far as `parseStreamMessage`
   * looks at it. `NotJson`: the parse throws. `JsonNull`: `null`, on which
   * reading `.type` throws. `Scalar`: a number, string, boolean or array, which
   * has none of the fields below. `Object`: an object and the fields read from
   * it (absent fields are `None`).
   */
  datatype Json =
    | NotJson
    | JsonNull
    | Scalar
    | Object(
        msgType: Option<string>,
        content: Option<string>,
        token: Option<string>,
        block: Option<ResponseBlock>,
        data: Option<ResponseBlock>,
        error: Option<string>,
        message: Option<string>)

  predicate IsCompletion(parsed: Json) {
    parsed.Object? && (parsed.msgType == Some("done") || parsed.msgType == Some("complete"))
  }

  predicate IsKnownType(t: Option<string>) {
    t == Some("token") || t == Some("block") || t == Some("done") || t == Some("complete") || t == Some("error")
  }

  /**
   * The body of `parseStreamMessage` once the payload `raw` has been parsed:
   * the `type` field picks the message, and anything unrecognised degrades to
   * a token. It never fails.
   */
  function Interpret(parsed: Json, raw: string): (m: StreamMessage)
    ensures m.Done? <==> IsCompletion(parsed)
    ensures m.Block? <==> parsed.Object? && parsed.msgType == Some("block")
    ensures m.Error? <==> parsed.Object? && parsed.msgType == Some("error")
    ensures m.Token? <==> !parsed.Object? || !IsKnownType(parsed.msgType) || parsed.msgType == Some("token")
    ensures !parsed.Object? ==> m == Token(Some(raw))
    ensures parsed.Object? && parsed.msgType == Some("token") ==> m == Token(OrElse(parsed.content, parsed.token))
    ensures parsed.Object? && !IsKnownType(parsed.msgType) ==> m == Token(OrElse(parsed.content, Some(raw)))
    ensures m.Block? ==> m.block == (if parsed.block.Some? then parsed.block else parsed.data)
    ensures m.Error? ==> m.error == OrElse(parsed.error, parsed.message)
  {
    match parsed
    case NotJson => Token(Some(raw))
    case JsonNull => Token(Some(raw))
    case Scalar => Token(Some(raw))  // `parsed.content` is undefined on a number, string or boolean
    case Object(t, content, token, block, data, error, message) =>
      if t == Some("token") then Token(OrElse(content, token))
      else if t == Some("block") then Block(if block.Some? then block else data)
      else if t == Some("done") || t == Some("complete") then Done
      else if t == Some("error") then Error(OrElse(error, message))
      else Token(OrElse(content, Some(raw)))
  }

  /** `parseStreamMessage`: interpret a frame's payload through `JSON.parse`. */
  function ParseStreamMessage(event: SSEEvent, decode: string -> Json): (m: StreamMessage)
    ensures !decode(event.data).Object? ==> m == Token(Some(event.data))
    ensures m.Done? <==> IsCompletion(decode(event.data))
    ensures m.Token? ==> m.content.Some? || decode(event.data).Object?
  {
    Interpret(decode(event.data), event.data)
  }

  /** The JSON object a server following the protocol sends for a message. */
  function ToWire(m: StreamMessage): Json {
    match m
    case Token(c) => Object(Some("token"), c, None, None, None, None, None)
    case Block(b) => Object(Some("block"), None, None, b, None, None, None)
    case Done => Object(Some("done"), None, None, None, None, None, None)
    case Error(e) => Object(Some("error"), None, None, None, None, e, None)
  }

  /** The messages a server can send without losing information to `||`. */
  predicate Canonical(m: StreamMessage) {
    match m
    case Token(c) => Truthy(c)
    case Block(b) => b.Some?
    case Done => true
    case Error(e) => Truthy(e)
  }

  /** Interpreting what a server sends gives back the message it meant. */
  lemma InterpretToWire(m: StreamMessage, raw: string)
    requires Canonical(m)
    ensures Interpret(ToWire(m), raw) == m
  {
  }

  /**
   * A `data: ` line whose payload parses to the server's encoding of a message
   * yields that message.
   */
  lemma WireRoundTrip(m: StreamMessage, payload: string, decode: string -> Json)
    requires Canonical(m) && decode(payload) == ToWire(m)
    ensures ParseSSELine(DataPrefix + payload).Some?
    ensures ParseStreamMessage(ParseSSELine(DataPrefix + payload).value, decode) == m
  {
    FormatParseRoundTrip(DataField(payload));
    InterpretToWire(m, payload);
  }

  /** A payload that is not JSON is a token carrying the raw text, never an error. */
  lemma PlainTextIsToken(event: SSEEvent, decode: string -> Json)
    requires decode(event.data) == NotJson || decode(event.data) == JsonNull
    ensures ParseStreamMessage(event, decode) == Token(Some(event.data))
  {
  }

  /**
   * `event:` and `id:` lines carry the empty payload, which `JSON.parse`
   * rejects, so each becomes a token with empty content.
   */
  lemma EventAndIdLinesAreEmptyTokens(line: string, decode: string -> Json)
    requires decode("") == NotJson
    requires StartsWith(line, EventPrefix) || StartsWith(line, IdPrefix)
    ensures ParseSSELine(line).Some?
    ensures ParseStreamMessage(ParseSSELine(line).value, decode) == Token(Some(""))
  {
    assert line[0] != 'd';
    assert !StartsWith(line, DataPrefix);
  }
}
