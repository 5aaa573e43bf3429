/**
 * Data model shared by the stream client, the conversation assembler and the
 * block renderers (the interfaces of src/types/index.ts).
 */
module Types {

  datatype Option<+T> = None | Some(value: T)

  /** JavaScript truthiness of an optional string: present and non-empty. */
  predicate Truthy(s: Option<string>) {
    s.Some? && s.value != ""
  }

  /** JavaScript `a || b` on optional strings: `a` when truthy, `b` otherwise. */
  function OrElse(a: Option<string>, b: Option<string>): (r: Option<string>)
    ensures Truthy(a) ==> r == a
    ensures !Truthy(a) ==> r == b
  {
    if Truthy(a) then a else b
  }

  /**
   * The fields of a block's `data` object that some part of the core reads:
   * `componentType` (custom blocks) and `question`, `options`, `allowCustom`
   * (feedback blocks). The rest of the payload is opaque to the core.
   * An absent `options` array is the empty sequence.
   */
  datatype BlockData = BlockData(
    componentType: Option<string>,
    question: Option<string>,
    options: seq<string>,
    allowCustom: bool)

  /** ResponseBlock: a tag from an open set (`text`, `drug`, `custom`, ...) and its data. */
  datatype ResponseBlock = ResponseBlock(blockType: string, data: BlockData, id: Option<string>)

  datatype Role = User | Assistant

  /**
   * Message. `id` and `timestamp` are the clock reading the id string and the
   * Date were made from; `blocks` is absent on user messages.
   */
  datatype Message = Message(
    id: int,
    role: Role,
    content: string,
    timestamp: int,
    blocks: Option<seq<ResponseBlock>>)

  /** SSEEvent: the frame one wire line decodes to. */
  datatype SSEEvent = SSEEvent(event: Option<string>, data: string, id: Option<string>)

  /** StreamMessage: the application event one frame decodes to. */
  datatype StreamMessage =
    | Token(content: Option<string>)
    | Block(block: Option<ResponseBlock>)
    | Done
    | Error(error: Option<string>)

  /** The causes of the `Error` objects handed to an `onError` callback. */
  datatype ErrorCause =
    | HttpStatus(status: int)     // "HTTP error! status: <status>"
    | NullBody                    // "Response body is null"
    | Network(reason: string)     // a rejected fetch or read that is not an abort
    | Remote(message: string)     // an `error` stream message

  /** One invocation of a stream callback, in the order the client makes them. */
  datatype Callback = OnMessage(message: StreamMessage) | OnError(cause: ErrorCause) | OnComplete

  /** The JSON body of a chat POST: `{message, history}`. */
  datatype ChatRequest = ChatRequest(message: string, history: seq<Message>)
}
