/**
 * The stream session of src/utils/sseClient.ts: the read loop shared by
 * `connect` (GET) and `postAndStream` (POST), the cancellation handle with
 * `disconnect` and `isConnected`, and the GET-or-POST choice of
 * src/hooks/useSSEStream.ts.
 *
 * The network is an input: a `Fetched` value says how the request went, and
 * for a response with a body, which already-decoded text chunks the reader
 * delivered before the stream ended and how it ended.
 */
module SseClient {
  import opened Types
  import opened Text
  import opened SseParse

  datatype HttpVerb = Get | Post

  /** The request handed to `fetch`. */
  datatype Request = Request(
    verb: HttpVerb,
    url: string,
    headers: map<string, string>,
    body: Option<ChatRequest>)

  const EventStream: string := "text/event-stream"

  /**
   * The request `connect` (no body) or `postAndStream` (a body) issues. The
   * caller's headers are spread last, so they override the defaults.
   */
  function RequestFor(url: string, body: Option<ChatRequest>, headers: map<string, string>): (r: Request)
    ensures r.url == url && r.body == body
    ensures r.verb == (if body.Some? then Post else Get)
    ensures r.headers.Keys == headers.Keys + {"Accept"} + (if body.Some? then {"Content-Type"} else {})
    ensures forall k :: k in headers ==> r.headers[k] == headers[k]
    ensures "Accept" !in headers ==> r.headers["Accept"] == EventStream
    ensures body.Some? && "Content-Type" !in headers ==> r.headers["Content-Type"] == "application/json"
  {
    var defaults :=
      if body.Some? then map["Content-Type" := "application/json", "Accept" := EventStream]
      else map["Accept" := EventStream];
    Request(if body.Some? then Post else Get, url, defaults + headers, body)
  }

  /** How reading the body stopped. */
  datatype StreamEnd =
    | EndOfStream                 // `reader.read()` reported done
    | ReadAborted                 // the read rejected with an AbortError
    | ReadFailed(reason: string)  // the read rejected with any other error

  /** What the network did with one request. */
  datatype Fetched =
    | FetchRejected(aborted: bool, reason: string)
    | Responded(ok: bool, status: int, hasBody: bool, chunks: seq<string>, end: StreamEnd)

  /** The callbacks one complete line produces: blank and unprefixed lines produce none. */
  function LineEvents(line: string, decode: string -> Json): (events: seq<Callback>)
    ensures |events| <= 1
    ensures |events| == 1 <==> !IsBlank(line) && HasFieldPrefix(line)
    ensures |events| == 1 ==> events[0] == OnMessage(ParseStreamMessage(ParseSSELine(line).value, decode))
  {
    if IsBlank(line) then []
    else
      match ParseSSELine(line)
      case None => []
      case Some(frame) => [OnMessage(ParseStreamMessage(frame, decode))]
  }

  /** The callbacks a sequence of complete lines produces, line by line in order. */
  function Dispatch(lines: seq<string>, decode: string -> Json): (events: seq<Callback>)
    ensures |events| <= |lines|
    ensures forall i :: 0 <= i < |events| ==> events[i].OnMessage?
  {
    if lines == [] then []
    else Dispatch(lines[..|lines| - 1], decode) + LineEvents(lines[|lines| - 1], decode)
  }

  /** The callback, if any, that ends a stream. */
  function EndEvents(end: StreamEnd): seq<Callback> {
    match end
    case EndOfStream => [OnComplete]
    case ReadAborted => []
    case ReadFailed(reason) => [OnError(Network(reason))]
  }

  /**
   * Every callback one session makes, in order: the messages of the complete
   * lines of everything the reader delivered, then how it ended. Text after
   * the last line feed is never parsed.
   */
  function SessionEvents(fetched: Fetched, decode: string -> Json): (events: seq<Callback>)
    ensures EndsInAbort(fetched) <==> events == [] || events[|events| - 1].OnMessage?
  {
    match fetched
    case FetchRejected(aborted, reason) => if aborted then [] else [OnError(Network(reason))]
    case Responded(ok, status, hasBody, chunks, end) =>
      if !ok then [OnError(HttpStatus(status))]
      else if !hasBody then [OnError(NullBody)]
      else Dispatch(CompleteLines(Concat(chunks)), decode) + EndEvents(end)
  }

  /**
   * The session was cut off by an AbortError, during the fetch or during a
   * read. The only `abort()` of a request's handle is in `disconnect()`.
   */
  predicate EndsInAbort(fetched: Fetched) {
    (fetched.FetchRejected? && fetched.aborted)
    || (fetched.Responded? && fetched.ok && fetched.hasBody && fetched.end == ReadAborted)
  }

  lemma {:induction false} DispatchAppend(a: seq<string>, b: seq<string>, decode: string -> Json)
    ensures Dispatch(a + b, decode) == Dispatch(a, decode) + Dispatch(b, decode)
  {
    if b == [] {
      assert a + b == a;
    } else {
      var b' := b[..|b| - 1];
      DispatchAppend(a, b', decode);
      assert (a + b)[..|a + b| - 1] == a + b';
      assert (a + b)[|a + b| - 1] == b[|b| - 1];
    }
  }

  /**
   * One message per line that is neither blank nor unprefixed, in line order:
   * the k-th callback of a dispatch is the message of the k-th such line.
   */
  lemma {:induction false} DispatchCountsFieldLines(lines: seq<string>, decode: string -> Json)
    ensures |Dispatch(lines, decode)| == |FieldLines(lines)|
    ensures forall k :: 0 <= k < |FieldLines(lines)| ==>
              Dispatch(lines, decode)[k] == LineEvents(FieldLines(lines)[k], decode)[0]
  {
    if lines != [] {
      DispatchCountsFieldLines(lines[..|lines| - 1], decode);
    }
  }

  /** The lines that carry a field, in order. */
  function FieldLines(lines: seq<string>): (fieldLines: seq<string>)
    ensures |fieldLines| <= |lines|
    ensures forall i :: 0 <= i < |fieldLines| ==> !IsBlank(fieldLines[i]) && HasFieldPrefix(fieldLines[i])
  {
    if lines == [] then []
    else
      var last := lines[|lines| - 1];
      FieldLines(lines[..|lines| - 1]) + (if !IsBlank(last) && HasFieldPrefix(last) then [last] else [])
  }

  /**
   * The inner loop over the complete lines of one read: skip blank lines,
   * classify the rest and report a message for each line that carries a field.
   */
  method DispatchLines(complete: seq<string>, decode: string -> Json) returns (events: seq<Callback>)
    ensures events == Dispatch(complete, decode)
  {
    events := [];
    var i := 0;
    while i < |complete|
      invariant 0 <= i <= |complete|
      invariant events == Dispatch(complete[..i], decode)
    {
      var line := complete[i];
      if !IsBlank(line) {
        var frame := ParseSSELine(line);
        if frame.Some? {
          events := events + [OnMessage(ParseStreamMessage(frame.value, decode))];
        }
      }
      assert complete[..i + 1][..i] == complete[..i];
      i := i + 1;
    }
    assert complete[..i] == complete;
  }

  /**
   * One step of the carry-over buffer: the complete lines so far, each with
   * its line feed, and the buffer make up the chunks read so far, and that
   * stays so once the next chunk is appended, split, and its last part kept.
   */
  lemma CarryOver(lines: seq<string>, buffer: string, chunks: seq<string>, k: nat)
    requires k < |chunks|
    requires AllNoNewline(lines) && Terminated(lines) + buffer == Concat(chunks[..k])
    ensures var received := buffer + chunks[k];
      && AllNoNewline(lines + CompleteLines(received))
      && Terminated(lines + CompleteLines(received)) + Remainder(received) == Concat(chunks[..k + 1])
  {
    var received := buffer + chunks[k];
    var complete, rest := CompleteLines(received), Remainder(received);
    assert Terminated(complete) + rest == received by { LinesAndRemainder(received); }
    assert Terminated(lines + complete) == Terminated(lines) + Terminated(complete) by {
      TerminatedAppend(lines, complete);
    }
    assert Concat(chunks[..k + 1]) == Concat(chunks[..k]) + chunks[k] by { ConcatSnoc(chunks, k); }
    Regroup(Terminated(lines), Terminated(complete), rest, buffer, chunks[k]);
    forall i | 0 <= i < |lines + complete|
      ensures NoNewline((lines + complete)[i])
    {
      if i >= |lines| {
        assert (lines + complete)[i] == complete[i - |lines|];
      }
    }
  }

  lemma Regroup(before: string, added: string, rest: string, buffer: string, chunk: string)
    requires added + rest == buffer + chunk
    ensures (before + added) + rest == (before + buffer) + chunk
  {
    calc {
      (before + added) + rest;
      before + (added + rest);
      before + (buffer + chunk);
      (before + buffer) + chunk;
    }
  }

  lemma ConcatSnoc(chunks: seq<string>, k: nat)
    requires k < |chunks|
    ensures Concat(chunks[..k + 1]) == Concat(chunks[..k]) + chunks[k]
  {
    assert chunks[..k + 1][..k] == chunks[..k];
  }

  /**
   * The read loop of `connect`/`postAndStream` once a body is available:
   * append each chunk to the carry-over buffer, split it on line feeds, keep
   * the last part as the new buffer and hand every complete line to the
   * parsers; at the end, report completion (the buffer is dropped) or, for a
   * failed read, the error. An abort ends it silently.
   */
  method ReadStream(chunks: seq<string>, end: StreamEnd, decode: string -> Json) returns (events: seq<Callback>)
    ensures events == Dispatch(CompleteLines(Concat(chunks)), decode) + EndEvents(end)
  {
    var buffer := "";
    ghost var lines: seq<string> := [];
    events := [];
    var k := 0;
    while k < |chunks|
      invariant 0 <= k <= |chunks|
      invariant NoNewline(buffer) && AllNoNewline(lines)
      invariant Terminated(lines) + buffer == Concat(chunks[..k])
      invariant events == Dispatch(lines, decode)
    {
      CarryOver(lines, buffer, chunks, k);
      var received := buffer + chunks[k];
      var parts := Split(received);
      var complete := parts[..|parts| - 1];
      buffer := parts[|parts| - 1];
      var more := DispatchLines(complete, decode);
      DispatchAppend(lines, complete, decode);
      events := events + more;
      lines := lines + complete;
      k := k + 1;
    }
    assert chunks[..k] == chunks;
    LinesUnique(lines, buffer, Concat(chunks));
    events := events + EndEvents(end);
  }

  /**
   * A line split across chunks is read as if it had come whole: the
   * callbacks depend only on the text the chunks make up together.
   */
  lemma ChunkBoundariesInvisible(chunks1: seq<string>, chunks2: seq<string>, end: StreamEnd, decode: string -> Json)
    requires Concat(chunks1) == Concat(chunks2)
    ensures SessionEvents(Responded(true, 200, true, chunks1, end), decode)
         == SessionEvents(Responded(true, 200, true, chunks2, end), decode)
  {
  }

  /**
   * Text after the last line feed is never parsed: a last chunk with no line
   * feed, including one that continues an unfinished line of earlier chunks,
   * adds no complete line and only lengthens the carried-over buffer.
   */
  lemma UnterminatedTailDropped(chunks: seq<string>, tail: string)
    requires NoNewline(tail)
    ensures CompleteLines(Concat(chunks + [tail])) == CompleteLines(Concat(chunks))
    ensures Remainder(Concat(chunks + [tail])) == Remainder(Concat(chunks)) + tail
  {
    var s := Concat(chunks);
    assert (chunks + [tail])[..|chunks|] == chunks;
    LinesAndRemainder(s);
    assert Terminated(CompleteLines(s)) + (Remainder(s) + tail) == s + tail;
    LinesUnique(CompleteLines(s), Remainder(s) + tail, s + tail);
  }

  /**
   * Every session ends in at most one terminal callback, and only as its last:
   * completion exactly when the stream reached its end, an error exactly when
   * the request or a read failed other than by an abort, neither after an abort.
   */
  lemma SessionTermination(fetched: Fetched, decode: string -> Json)
    ensures var events := SessionEvents(fetched, decode);
      forall i :: 0 <= i < |events| - 1 ==> events[i].OnMessage?
    ensures var events := SessionEvents(fetched, decode);
      (OnComplete in events <==> fetched.Responded? && fetched.ok && fetched.hasBody && fetched.end == EndOfStream)
    ensures var events := SessionEvents(fetched, decode);
      ((exists i :: 0 <= i < |events| && events[i].OnError?) <==>
        (fetched.FetchRejected? && !fetched.aborted)
        || (fetched.Responded? && (!fetched.ok || !fetched.hasBody || fetched.end.ReadFailed?)))
  {
    var events := SessionEvents(fetched, decode);
    if (fetched.FetchRejected? && !fetched.aborted) || (fetched.Responded? && (!fetched.ok || !fetched.hasBody)) {
      assert events[0].OnError?;
    } else if fetched.Responded? && fetched.ok && fetched.hasBody {
      var msgs := Dispatch(CompleteLines(Concat(fetched.chunks)), decode);
      assert events == msgs + EndEvents(fetched.end);
      assert forall i :: 0 <= i < |msgs| ==> events[i] == msgs[i];
      if fetched.end.ReadFailed? {
        assert events[|events| - 1].OnError?;
      }
    }
  }

  /** A failed request reports one error and no message. */
  lemma RejectedResponseReportsOnce(fetched: Fetched, decode: string -> Json)
    requires fetched.Responded? && (!fetched.ok || !fetched.hasBody)
    ensures SessionEvents(fetched, decode)
         == [OnError(if !fetched.ok then HttpStatus(fetched.status) else NullBody)]
  {
  }

  /** The `AbortController` of one request. */
  class AbortHandle {
    var aborted: bool

    constructor ()
      ensures !aborted
    {
      aborted := false;
    }

    method Abort()
      modifies this
      ensures aborted
    {
      aborted := true;
    }
  }

  /** `SSEClient`: one cancellation handle, replaced by every new request. */
  class SSEClient {
    var controller: AbortHandle?

    constructor ()
      ensures controller == null && !IsConnected()
    {
      controller := null;
    }

    predicate IsConnected()
      reads this
    {
      controller != null
    }

    /**
     * Install a fresh handle (the previous one, if any, is neither aborted nor
     * kept), issue the request and run the read loop. A session that completes
     * or fails leaves its handle installed and unaborted. A session cut off by
     * an AbortError was cut off by `disconnect()`, which aborted the handle and
     * dropped it.
     */
    method Stream(url: string, body: Option<ChatRequest>, headers: map<string, string>,
                  fetched: Fetched, decode: string -> Json)
      returns (request: Request, events: seq<Callback>)
      modifies this
      ensures !EndsInAbort(fetched) ==> fresh(controller) && !controller.aborted && IsConnected()
      ensures EndsInAbort(fetched) ==> controller == null && !IsConnected()
      ensures request == RequestFor(url, body, headers)
      ensures events == SessionEvents(fetched, decode)
    {
      controller := new AbortHandle();
      request := RequestFor(url, body, headers);
      if EndsInAbort(fetched) {
        Disconnect();
      }
      match fetched
      case FetchRejected(aborted, reason) =>
        events := if aborted then [] else [OnError(Network(reason))];
      case Responded(ok, status, hasBody, chunks, end) =>
        if !ok {
          events := [OnError(HttpStatus(status))];
        } else if !hasBody {
          events := [OnError(NullBody)];
        } else {
          events := ReadStream(chunks, end, decode);
        }
    }

    /** `connect`: a GET of the event stream. */
    method Connect(url: string, headers: map<string, string>, fetched: Fetched, decode: string -> Json)
      returns (request: Request, events: seq<Callback>)
      modifies this
      ensures !EndsInAbort(fetched) ==> fresh(controller) && !controller.aborted && IsConnected()
      ensures EndsInAbort(fetched) ==> controller == null && !IsConnected()
      ensures request.verb == Get && request == RequestFor(url, None, headers)
      ensures events == SessionEvents(fetched, decode)
    {
      request, events := Stream(url, None, headers, fetched, decode);
    }

    /** `postAndStream`: a POST of `body`, whose response is read like a GET's. */
    method PostAndStream(url: string, body: ChatRequest, headers: map<string, string>,
                         fetched: Fetched, decode: string -> Json)
      returns (request: Request, events: seq<Callback>)
      modifies this
      ensures !EndsInAbort(fetched) ==> fresh(controller) && !controller.aborted && IsConnected()
      ensures EndsInAbort(fetched) ==> controller == null && !IsConnected()
      ensures request.verb == Post && request == RequestFor(url, Some(body), headers)
      ensures events == SessionEvents(fetched, decode)
    {
      request, events := Stream(url, Some(body), headers, fetched, decode);
    }

    /** `disconnect`: abort the current request, if any, and drop the handle. */
    method Disconnect()
      modifies this, controller
      ensures controller == null && !IsConnected()
      ensures old(controller) != null ==> old(controller).aborted
    {
      if controller != null {
        controller.Abort();
        controller := null;
      }
    }
  }

  /**
   * `startStream` of the React hook: POST when there is a body, GET otherwise.
   */
  method StartStream(client: SSEClient, url: string, data: Option<ChatRequest>, headers: map<string, string>,
                     fetched: Fetched, decode: string -> Json)
    returns (request: Request, events: seq<Callback>)
    modifies client
    ensures !EndsInAbort(fetched) ==> fresh(client.controller) && !client.controller.aborted && client.IsConnected()
    ensures EndsInAbort(fetched) ==> client.controller == null && !client.IsConnected()
    ensures request == RequestFor(url, data, headers)
    ensures events == SessionEvents(fetched, decode)
  {
    if data.Some? {
      request, events := client.PostAndStream(url, data.value, headers, fetched, decode);
    } else {
      request, events := client.Connect(url, headers, fetched, decode);
    }
  }
}
