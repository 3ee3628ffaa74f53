/**
 * The streaming transport of the chat client (src/lib/streaming.ts): a server-push client
 * over an EventSource, a bidirectional client over a WebSocket with linear-backoff
 * reconnection, an append-only text buffer, the frame parser and the session URL.
 *
 * The handlers the source installs on the browser objects (`onopen`, `onmessage`,
 * `onerror`, `onclose`, the `complete` listener) are methods the environment calls when
 * the event fires. Callbacks supplied by the caller (`onMessage`, `onError`, `onConnect`,
 * `onComplete`, `onUpdate`) are recorded in ghost sequences, and so are the delays handed
 * to `setTimeout`; no timer runs. `JSON.parse` is the parameter `parse`.
 */
module Streaming {
  import opened Wrappers
  import opened Types
  import opened Seqs

  // ---------------------------------------------------------------- frames

  /**
   * `parseStreamChunk`: the value `JSON.parse` produced, or `None` (the source's `null`) when
   * it threw. A chunk that parses to JSON `null` also yields `null`, indistinguishable from
   * a failure. Any other parsed value is passed on as it is: its `type` member is not
   * compared with the six event tags.
   */
  function ParseStreamChunk(parse: string -> Option<Json>, chunk: string): (r: Option<Json>)
    ensures r.None? <==> parse(chunk).None? || parse(chunk) == Some(JNull)
    ensures r.Some? ==> r == parse(chunk)
  {
    match parse(chunk)
    case Some(j) => if j == JNull then None else Some(j)
    case None => None
  }

  /** `parseStreamChunk("null")` is `null`, like a chunk that does not parse. */
  lemma NullChunk(parse: string -> Option<Json>)
    requires parse("null") == Some(JNull)
    ensures ParseStreamChunk(parse, "null").None?
  {
  }

  /**
   * What a message handler passes to `onMessage` for one raw frame: the value `JSON.parse`
   * gives, JSON `null` included, or nothing when it throws.
   */
  function Delivered(parse: string -> Option<Json>, data: string): (r: seq<Json>)
    ensures |r| <= 1
    ensures r == [] <==> parse(data).None?
    ensures r != [] ==> Some(r[0]) == parse(data)
  {
    match parse(data)
    case Some(j) => [j]
    case None => []
  }

  // ---------------------------------------------------------------- server-push client

  const SseConnectionError := "SSE connection error"

  /** The browser's EventSource; only whether it has been closed matters. */
  class EventSourceHandle {
    const url: string
    var closed: bool

    constructor (url: string)
      ensures this.url == url && !closed
    {
      this.url := url;
      closed := false;
    }

    method Close()
      modifies this
      ensures closed
    {
      closed := true;
    }
  }

  /** `SSEClient`: one EventSource at a time, closed on error and on completion. */
  class SSEClient {
    const url: string
    var eventSource: EventSourceHandle?
    ghost var received: seq<Json>     // arguments of onMessage
    ghost var errors: seq<string>     // messages of the errors passed to onError
    ghost var completions: nat        // calls of onComplete

    constructor (url: string)
      ensures this.url == url && eventSource == null
      ensures received == [] && errors == [] && completions == 0
    {
      this.url := url;
      eventSource := null;
      received, errors, completions := [], [], 0;
    }

    /** `connect()`: opens a new EventSource on the client's URL (a previous one is not closed). */
    method Connect()
      modifies this
      ensures fresh(eventSource) && eventSource.url == url && !eventSource.closed
      ensures received == old(received) && errors == old(errors) && completions == old(completions)
    {
      eventSource := new EventSourceHandle(url);
    }

    /** The `onmessage` handler: a frame that parses goes to onMessage; one that does not is dropped and the source stays open. */
    method HandleMessage(data: string, parse: string -> Option<Json>)
      modifies this
      ensures received == old(received) + Delivered(parse, data)
      ensures eventSource == old(eventSource)
      ensures errors == old(errors) && completions == old(completions)
    {
      match parse(data)
      case Some(j) => received := received + [j];
      case None =>
    }

    /** The `onerror` handler: reports the error, then closes. */
    method HandleError()
      modifies this, eventSource
      ensures errors == old(errors) + [SseConnectionError]
      ensures eventSource == null
      ensures old(eventSource) != null ==> old(eventSource).closed
      ensures received == old(received) && completions == old(completions)
    {
      errors := errors + [SseConnectionError];
      Close();
    }

    /** The `complete` listener: calls onComplete, then closes. */
    method HandleComplete()
      modifies this, eventSource
      ensures completions == old(completions) + 1
      ensures eventSource == null
      ensures old(eventSource) != null ==> old(eventSource).closed
      ensures received == old(received) && errors == old(errors)
    {
      completions := completions + 1;
      Close();
    }

    /** `close()`: closes and forgets the source; with no source it changes nothing. */
    method Close()
      modifies this, eventSource
      ensures eventSource == null
      ensures old(eventSource) != null ==> old(eventSource).closed
      ensures received == old(received) && errors == old(errors) && completions == old(completions)
    {
      if eventSource != null {
        eventSource.Close();
        eventSource := null;
      }
    }
  }

  // ---------------------------------------------------------------- reconnection policy

  const MaxReconnectAttempts: nat := 5
  const ReconnectDelay: nat := 1000
  const MaxAttemptsError := "Max reconnection attempts reached"
  const WebSocketConnectionError := "WebSocket connection error"

  /** The reconnection state of a WebSocket client: its attempt counter, the delays scheduled so far, the errors reported so far. */
  datatype ReconnectLog = ReconnectLog(attempts: nat, delays: seq<nat>, errors: seq<string>)

  /**
   * `attemptReconnect`: below the cap, count one more attempt and schedule a reconnect after
   * `reconnectDelay * attempts`; at the cap, report that the attempts are exhausted. Every
   * close gets exactly one reaction, appended to what was there: a delay of 1000 times the
   * new count, or an error.
   */
  function AfterClose(g: ReconnectLog): (r: ReconnectLog)
    ensures || (r.delays == g.delays + [ReconnectDelay * r.attempts] && r.errors == g.errors)
            || (r.delays == g.delays && r.errors == g.errors + [MaxAttemptsError])
    ensures g.attempts <= MaxReconnectAttempts ==> r.attempts <= MaxReconnectAttempts
  {
    if g.attempts < MaxReconnectAttempts then
      ReconnectLog(g.attempts + 1, g.delays + [ReconnectDelay * (g.attempts + 1)], g.errors)
    else
      g.(errors := g.errors + [MaxAttemptsError])
  }

  /** `k` close events in a row with no successful open in between. */
  function AfterCloses(g: ReconnectLog, k: nat): ReconnectLog
    decreases k
  {
    if k == 0 then g else AfterCloses(AfterClose(g), k - 1)
  }

  /** The delays of attempts `from + 1` to `from + n`: linear backoff. */
  function LinearDelays(from: nat, n: nat): (r: seq<nat>)
    ensures |r| == n
    ensures forall i :: 0 <= i < n ==> r[i] == ReconnectDelay * (from + i + 1)
    decreases n
  {
    if n == 0 then [] else [ReconnectDelay * (from + 1)] + LinearDelays(from + 1, n - 1)
  }

  /** `n` copies of `x`. */
  function Repeat<T>(x: T, n: nat): (r: seq<T>)
    ensures |r| == n
    ensures forall i :: 0 <= i < n ==> r[i] == x
    decreases n
  {
    if n == 0 then [] else [x] + Repeat(x, n - 1)
  }

  function Min(a: int, b: int): int {
    if a <= b then a else b
  }

  /**
   * Consecutive closes from any admissible counter: the counter climbs to the cap and stops
   * there, each close below the cap schedules the next linear delay, and every close at
   * the cap reports one "Max reconnection attempts reached" and schedules nothing.
   */
  lemma {:induction false} ConsecutiveCloses(g: ReconnectLog, k: nat)
    requires g.attempts <= MaxReconnectAttempts
    ensures var n := Min(g.attempts + k, MaxReconnectAttempts) - g.attempts;
      && AfterCloses(g, k).attempts == g.attempts + n
      && AfterCloses(g, k).delays == g.delays + LinearDelays(g.attempts, n)
      && AfterCloses(g, k).errors == g.errors + Repeat(MaxAttemptsError, k - n)
    decreases k
  {
    if k > 0 {
      var g' := AfterClose(g);
      ConsecutiveCloses(g', k - 1);
      if g.attempts < MaxReconnectAttempts {
        assert g' == ReconnectLog(g.attempts + 1, g.delays + [ReconnectDelay * (g.attempts + 1)], g.errors);
        var n := Min(g.attempts + k, MaxReconnectAttempts) - g.attempts;
        assert LinearDelays(g.attempts, n) == [ReconnectDelay * (g.attempts + 1)] + LinearDelays(g'.attempts, n - 1);
      } else {
        assert g' == g.(errors := g.errors + [MaxAttemptsError]);
        assert Repeat(MaxAttemptsError, k) == [MaxAttemptsError] + Repeat(MaxAttemptsError, k - 1);
      }
    }
  }

  /**
   * From a fresh counter, a socket that never opens gets delays 1000, 2000, 3000, 4000, 5000
   * and, for each close after the fifth, one error and no further reconnect.
   */
  lemma FailingSocket(k: nat)
    requires k >= MaxReconnectAttempts
    ensures AfterCloses(ReconnectLog(0, [], []), k).delays == [1000, 2000, 3000, 4000, 5000]
    ensures AfterCloses(ReconnectLog(0, [], []), k).errors == Repeat(MaxAttemptsError, k - 5)
    ensures AfterCloses(ReconnectLog(0, [], []), k).attempts == MaxReconnectAttempts
  {
    ConsecutiveCloses(ReconnectLog(0, [], []), k);
    assert LinearDelays(0, 5) == [1000, 2000, 3000, 4000, 5000];
  }

  /** One close never takes the counter above the cap. */
  lemma AfterCloseBounded(g: ReconnectLog)
    requires g.attempts <= MaxReconnectAttempts
    ensures AfterClose(g).attempts <= MaxReconnectAttempts
    ensures AfterClose(g).attempts == g.attempts <==> g.attempts == MaxReconnectAttempts
  {
  }

  // ---------------------------------------------------------------- bidirectional client

  datatype ReadyState = Connecting | Open | Closing | Closed

  /** `WebSocketMessage`: the payload `send` serialises. */
  datatype OutgoingMessage = OutgoingMessage(
    kind: string,
    conversationId: Option<string>,
    content: Option<string>,
    action: Option<string>,
    data: Option<Json>)

  /**
   * The browser's WebSocket: its ready state and the frames it transmitted. `Opened` and
   * `Disconnected` are the network's transitions; the client only calls `Send` and `Close`.
   */
  class Socket {
    const url: string
    var readyState: ReadyState
    ghost var sent: seq<OutgoingMessage>

    constructor (url: string)
      ensures this.url == url && readyState == Connecting && sent == []
    {
      this.url := url;
      readyState := Connecting;
      sent := [];
    }

    /** The handshake completes: a connecting socket becomes OPEN (its `open` event follows). */
    method Opened()
      requires readyState == Connecting
      modifies this
      ensures readyState == Open && sent == old(sent)
    {
      readyState := Open;
    }

    /** The connection is gone, whether it failed, was dropped or finished closing (its `close` event follows). */
    method Disconnected()
      modifies this
      ensures readyState == Closed && sent == old(sent)
    {
      readyState := Closed;
    }

    /** `ws.send`, which the client only calls on an open socket. */
    method Send(m: OutgoingMessage)
      requires readyState == Open
      modifies this
      ensures sent == old(sent) + [m] && readyState == old(readyState)
    {
      sent := sent + [m];
    }

    /** `ws.close()`: a connecting or open socket starts closing; otherwise nothing happens. */
    method Close()
      modifies this
      ensures readyState == if old(readyState) in {Connecting, Open} then Closing else old(readyState)
      ensures sent == old(sent)
    {
      if readyState == Connecting || readyState == Open {
        readyState := Closing;
      }
    }
  }

  /**
   * `WebSocketClient`. Its counter never exceeds the cap; the handlers installed on a socket
   * keep running after `close()` drops the client's reference to it.
   */
  class WebSocketClient {
    const url: string
    var ws: Socket?
    var reconnectAttempts: nat
    ghost var delays: seq<nat>        // delays handed to setTimeout for a reconnect
    ghost var errors: seq<string>     // messages of the errors passed to onError
    ghost var connects: nat           // calls of onConnect
    ghost var received: seq<Json>     // arguments of onMessage

    ghost predicate Valid()
      reads this
    {
      reconnectAttempts <= MaxReconnectAttempts
    }

    ghost function Log(): ReconnectLog
      reads this
    {
      ReconnectLog(reconnectAttempts, delays, errors)
    }

    constructor (url: string)
      ensures Valid() && this.url == url && ws == null
      ensures Log() == ReconnectLog(0, [], []) && connects == 0 && received == []
    {
      this.url := url;
      ws := null;
      reconnectAttempts := 0;
      delays, errors, connects, received := [], [], 0, [];
    }

    /**
     * `connect()`: opens a new socket on the client's URL. `thrown` is the exception the
     * WebSocket constructor may raise; it goes to onError and `ws` keeps its old value.
     */
    method Connect(thrown: Option<string>)
      requires Valid()
      modifies this
      ensures Valid()
      ensures thrown.None? ==> fresh(ws) && ws.url == url && ws.readyState == Connecting && ws.sent == []
      ensures thrown.None? ==> errors == old(errors)
      ensures thrown.Some? ==> ws == old(ws) && errors == old(errors) + [thrown.value]
      ensures reconnectAttempts == old(reconnectAttempts) && delays == old(delays)
      ensures connects == old(connects) && received == old(received)
    {
      if thrown.Some? {
        errors := errors + [thrown.value];
      } else {
        ws := new Socket(url);
      }
    }

    /**
     * The `onopen` handler of socket `s`, which runs once `s` is OPEN: resets the counter and
     * calls onConnect. The handler reads the client's fields, not `s`, so it acts the same
     * when a later `connect()` has already replaced `s` as `ws`.
     */
    method HandleOpen(s: Socket)
      requires s.readyState == Open
      modifies this
      ensures Valid()
      ensures reconnectAttempts == 0 && connects == old(connects) + 1
      ensures ws == old(ws) && s.readyState == Open && s.sent == old(s.sent)
      ensures delays == old(delays) && errors == old(errors) && received == old(received)
    {
      reconnectAttempts := 0;
      connects := connects + 1;
    }

    /** The `onmessage` handler: as for the server-push client, a frame that does not parse is dropped. */
    method HandleMessage(data: string, parse: string -> Option<Json>)
      modifies this
      ensures received == old(received) + Delivered(parse, data)
      ensures ws == old(ws) && Log() == old(Log()) && connects == old(connects)
    {
      match parse(data)
      case Some(j) => received := received + [j];
      case None =>
    }

    /** The `onerror` handler: reports the error and nothing else; the socket's close event follows separately. */
    method HandleError()
      modifies this
      ensures errors == old(errors) + [WebSocketConnectionError]
      ensures ws == old(ws) && reconnectAttempts == old(reconnectAttempts) && delays == old(delays)
      ensures connects == old(connects) && received == old(received)
    {
      errors := errors + [WebSocketConnectionError];
    }

    /**
     * The `onclose` handler: every close event runs `attemptReconnect`, including the one
     * that follows an explicit `close()`, since nothing records that the client closed.
     */
    method HandleClose()
      requires Valid()
      modifies this
      ensures Valid()
      ensures Log() == AfterClose(old(Log()))
      ensures ws == old(ws) && connects == old(connects) && received == old(received)
    {
      AttemptReconnect();
    }

    /** `attemptReconnect`: the reconnection policy applied to the client's own counter. */
    method AttemptReconnect()
      requires Valid()
      modifies this
      ensures Valid()
      ensures Log() == AfterClose(old(Log()))
      ensures ws == old(ws) && connects == old(connects) && received == old(received)
    {
      if reconnectAttempts < MaxReconnectAttempts {
        reconnectAttempts := reconnectAttempts + 1;
        delays := delays + [ReconnectDelay * reconnectAttempts];
      } else {
        errors := errors + [MaxAttemptsError];
      }
    }

    /** `send`: transmits only on an existing socket whose state is OPEN; otherwise nothing is sent. */
    method Send(data: OutgoingMessage)
      modifies ws
      ensures ws != null ==> ws.readyState == old(ws.readyState)
      ensures ws != null && old(ws.readyState) == Open ==> ws.sent == old(ws.sent) + [data]
      ensures ws != null && old(ws.readyState) != Open ==> ws.sent == old(ws.sent)
    {
      if ws != null && ws.readyState == Open {
        ws.Send(data);
      }
    }

    /** `close()`: closes and forgets the socket; with no socket it changes nothing. The counter is left alone. */
    method Close()
      modifies this, ws
      ensures ws == null
      ensures old(ws) != null ==> old(ws).readyState == (if old(ws.readyState) in {Connecting, Open} then Closing else old(ws.readyState))
      ensures old(ws) != null ==> old(ws).sent == old(ws.sent)
      ensures Log() == old(Log()) && connects == old(connects) && received == old(received)
    {
      if ws != null {
        ws.Close();
        ws := null;
      }
    }
  }

  /** Connecting, the handshake completing and the `open` event make the client able to send: the message is transmitted. */
  method OpenThenSend(c: WebSocketClient, m: OutgoingMessage)
    requires c.Valid()
    modifies c
    ensures c.ws != null && fresh(c.ws) && c.ws.url == c.url
    ensures c.ws.readyState == Open && c.ws.sent == [m]
    ensures c.reconnectAttempts == 0 && c.connects == old(c.connects) + 1
  {
    c.Connect(None);
    c.ws.Opened();
    c.HandleOpen(c.ws);
    c.Send(m);
  }

  /**
   * A socket replaced by a second `connect()` still runs its `open` handler when its own
   * handshake completes: the counter is reset although the client's socket is still connecting.
   */
  method StaleOpen(c: WebSocketClient)
    requires c.Valid()
    modifies c
    ensures c.ws != null && fresh(c.ws) && c.ws.readyState == Connecting
    ensures c.reconnectAttempts == 0 && c.connects == old(c.connects) + 1
  {
    c.Connect(None);
    var first := c.ws;
    c.Connect(None);
    first.Opened();
    c.HandleOpen(first);
  }

  /**
   * A connection attempt that fails fires `error` and then `close`: the client reports
   * "WebSocket connection error" and then applies the reconnection policy, so at the cap
   * the two messages are reported one after the other.
   */
  method FailedConnection(c: WebSocketClient)
    requires c.Valid() && c.ws != null && c.ws.readyState == Connecting
    modifies c, c.ws
    ensures c.Valid() && c.ws == old(c.ws) && c.ws.readyState == Closed
    ensures c.Log() == AfterClose(old(c.Log()).(errors := old(c.errors) + [WebSocketConnectionError]))
    ensures old(c.reconnectAttempts) == MaxReconnectAttempts ==>
      c.errors == old(c.errors) + [WebSocketConnectionError, MaxAttemptsError] && c.delays == old(c.delays)
    ensures old(c.reconnectAttempts) < MaxReconnectAttempts ==>
      c.errors == old(c.errors) + [WebSocketConnectionError]
      && c.delays == old(c.delays) + [ReconnectDelay * c.reconnectAttempts]
  {
    c.ws.Disconnected();
    c.HandleError();
    c.HandleClose();
  }

  /** An explicit close does not stop reconnection: the close event it causes still schedules an attempt. */
  method CloseThenCloseEvent(c: WebSocketClient)
    requires c.Valid() && c.reconnectAttempts < MaxReconnectAttempts
    modifies c, c.ws
    ensures c.ws == null
    ensures c.reconnectAttempts == old(c.reconnectAttempts) + 1
    ensures c.delays == old(c.delays) + [ReconnectDelay * c.reconnectAttempts]
  {
    c.Close();
    c.HandleClose();
  }

  // ---------------------------------------------------------------- session URL

  const DefaultWsUrl := "ws://localhost:3000"

  /** `process.env.NEXT_PUBLIC_WS_URL || 'ws://localhost:3000'`: an unset or empty variable gives the default. */
  function BaseUrl(env: Option<string>): (r: string)
    ensures env.Some? && env.value != "" ==> r == env.value
    ensures env.None? || env.value == "" ==> r == DefaultWsUrl
  {
    if env.Some? && env.value != "" then env.value else DefaultWsUrl
  }

  /**
   * The session URL: the stream path with the conversation id, then `&token=` and the token
   * only when a non-empty token was given.
   */
  function SessionUrl(baseUrl: string, conversationId: string, token: Option<string>): (r: string)
    ensures var p := baseUrl + "/stream?conversationId=" + conversationId;
      && |p| <= |r| && r[..|p|] == p
      && (token.Some? && token.value != "" ==> r[|p|..] == "&token=" + token.value)
      && (token.None? || token.value == "" ==> r == p)
  {
    baseUrl + "/stream?conversationId=" + conversationId
      + (if token.Some? && token.value != "" then "&token=" + token.value else "")
  }

  /** `createStreamingSession`: a new, unconnected client on the session URL. */
  method CreateStreamingSession(env: Option<string>, conversationId: string, token: Option<string>)
    returns (c: WebSocketClient)
    ensures fresh(c) && c.Valid()
    ensures c.url == SessionUrl(BaseUrl(env), conversationId, token)
    ensures c.ws == null && c.Log() == ReconnectLog(0, [], [])
  {
    c := new WebSocketClient(SessionUrl(BaseUrl(env), conversationId, token));
  }

  // ---------------------------------------------------------------- text buffer

  /**
   * `StreamingTextHandler`: the buffer is the concatenation of the chunks added since the
   * last reset, and the k-th of those additions passed the first k chunks, concatenated, to
   * onUpdate.
   */
  class StreamingTextHandler {
    var buffer: string
    ghost var chunks: seq<string>    // chunks added since the last reset
    ghost var updates: seq<string>   // arguments of onUpdate

    ghost predicate Valid()
      reads this
    {
      && buffer == Flatten(chunks)
      && |chunks| <= |updates|
      && forall k :: 1 <= k <= |chunks| ==> updates[|updates| - |chunks| + k - 1] == Flatten(chunks[..k])
    }

    constructor ()
      ensures Valid() && buffer == "" && chunks == [] && updates == []
    {
      buffer := "";
      chunks, updates := [], [];
    }

    /** `addChunk`: appends the chunk and hands the whole buffer to onUpdate. */
    method AddChunk(chunk: string)
      requires Valid()
      modifies this
      ensures Valid()
      ensures chunks == old(chunks) + [chunk]
      ensures buffer == old(buffer) + chunk
      ensures updates == old(updates) + [buffer]
    {
      FlattenSnoc(chunks, chunk);
      buffer := buffer + chunk;
      chunks := chunks + [chunk];
      updates := updates + [buffer];
      forall k | 1 <= k <= |chunks|
        ensures updates[|updates| - |chunks| + k - 1] == Flatten(chunks[..k])
      {
        if k < |chunks| {
          assert chunks[..k] == old(chunks)[..k];
        } else {
          assert chunks[..k] == chunks;
        }
      }
    }

    /** `reset`: empties the buffer; onUpdate is not called. */
    method Reset()
      requires Valid()
      modifies this
      ensures Valid()
      ensures buffer == "" && chunks == [] && updates == old(updates)
    {
      buffer := "";
      chunks := [];
    }

    /** `getFullText`: the concatenation of every chunk added since the last reset. */
    method GetFullText() returns (text: string)
      requires Valid()
      ensures text == Flatten(chunks)
    {
      text := buffer;
    }
  }
}
