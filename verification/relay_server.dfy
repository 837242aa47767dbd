/** The per-connection relay between a browser WebSocket and the upstream
    realtime API (`OpenAIRelayServer.connectionHandler`).

    One connection is a small deterministic state machine driven by a trace of
    inputs. Node runs every handler to completion on one thread, so each input
    is one atomic step; in particular the drain loop that follows a successful
    `await client.connect()` runs as part of the `ConnectOk` step and no client
    message can interleave with it.

    `JSON.parse` (together with reading `event.type`) is the parameter `parse`:
    `None` stands for any exception thrown inside the handler's `try`.
    `JSON.stringify` is the parameter `encode`. The URL parser is the parameter
    `pathnameOf`, which maps the request URL to its pathname. */
module RelayServer {
  import opened Optional

  /** The only pathname on which a connection is relayed. */
  const StreamPath: string := "/stream"

  /** What has become of the upstream `RealtimeClient` of one connection. */
  datatype Dial =
    | NotCreated  // the connection was rejected before a client was constructed
    | Dialing     // `await client.connect()` has not settled yet
    | Succeeded   // the connect promise resolved
    | Failed      // the connect promise rejected

  /** The state of one accepted WebSocket connection. */
  datatype Connection<Ev> = Connection(
    dial: Dial,
    connected: bool,            // `client.isConnected()`
    queue: seq<string>,         // `messageQueue`: raw client messages, oldest first
    sent: seq<Ev>,              // every event sent upstream, in order
    delivered: seq<string>,     // every `ws.send` call on the browser socket, in order
    clientClosed: bool,         // the browser socket has been closed
    upstreamDisconnected: bool  // `client.disconnect()` was called or the upstream dispatched `close`
  )

  /** The things that can happen to a connection after it is accepted. */
  datatype Input<Ev> =
    | ClientMsg(raw: string)    // the browser socket delivered a message
    | ConnectOk                 // `client.connect()` resolved
    | ConnectFail               // `client.connect()` rejected
    | UpstreamEvent(event: Ev)  // the upstream dispatched a `server.*` event
    | UpstreamClose             // the upstream dispatched `close`
    | ClientClose               // the browser socket emitted `close`

  /** A connection turned away before any upstream client exists: its socket is closed. */
  function Rejected<Ev>(): Connection<Ev> {
    Connection(NotCreated, false, [], [], [], true, false)
  }

  /** A freshly accepted connection whose upstream client has just started dialling. */
  function Opened<Ev>(): Connection<Ev> {
    Connection(Dialing, false, [], [], [], false, false)
  }

  /** The checks at the top of `connectionHandler`: `!req.url` is a truthiness
      test, so a missing and an empty URL are both turned away before the
      pathname is looked at. */
  function Accept<Ev>(url: Option<string>, pathnameOf: string -> string): (c: Connection<Ev>)
    ensures c.dial == NotCreated <==> url.None? || url.value == "" || pathnameOf(url.value) != StreamPath
    ensures c.dial == NotCreated ==> c.clientClosed && !c.connected
    ensures c.dial != NotCreated ==> c.dial == Dialing && !c.connected && !c.clientClosed
    ensures c.queue == [] && c.sent == [] && c.delivered == [] && !c.upstreamDisconnected
  {
    if url.None? || url.value == "" then Rejected()
    else if pathnameOf(url.value) != StreamPath then Rejected()
    else Opened()
  }

  /** The events a sequence of raw messages yields when every message is parsed
      and the ones that fail to parse are skipped: the reference for what must
      reach the upstream. */
  function Parsed<Ev>(parse: string -> Option<Ev>, raws: seq<string>): seq<Ev>
  {
    if |raws| == 0 then []
    else
      match parse(raws[0])
      case None => Parsed(parse, raws[1..])
      case Some(e) => [e] + Parsed(parse, raws[1..])
  }

  /** `messageHandler`: parse one raw message and send the event upstream; a
      message that fails to parse is logged and dropped. */
  function Forward<Ev>(parse: string -> Option<Ev>, sent: seq<Ev>, raw: string): (r: seq<Ev>)
    ensures r == sent + Parsed(parse, [raw])
  {
    match parse(raw)
    case None => sent
    case Some(e) => sent + [e]
  }

  /** The drain loop run once the connect succeeds: `shift` the oldest message
      and hand it to `messageHandler` until the queue is empty. */
  function Drain<Ev>(parse: string -> Option<Ev>, queue: seq<string>, sent: seq<Ev>): (r: seq<Ev>)
    ensures r == sent + Parsed(parse, queue)
    decreases |queue|
  {
    if |queue| == 0 then sent
    else Drain(parse, queue[1..], Forward(parse, sent, queue[0]))
  }

  /** The facts every reachable connection satisfies. */
  ghost predicate Inv<Ev>(c: Connection<Ev>)
  {
    && (c.connected ==> c.dial == Succeeded && c.queue == [])
    && (c.dial != Succeeded ==> c.sent == [])
    && (c.dial == Failed ==> c.clientClosed)
    && (c.dial == NotCreated ==> c.queue == [] && c.delivered == [] && c.clientClosed)
  }

  /** One handler run. A rejected connection registered no handler, so it
      ignores everything. */
  function Step<Ev>(parse: string -> Option<Ev>, encode: Ev -> string,
                    c: Connection<Ev>, input: Input<Ev>): (d: Connection<Ev>)
    ensures Inv(c) ==> Inv(d)
    ensures c.dial == NotCreated <==> d.dial == NotCreated
    ensures c.clientClosed ==> d.clientClosed
    ensures c.upstreamDisconnected ==> d.upstreamDisconnected
    ensures c.dial == Failed ==> d.dial == Failed
  {
    if c.dial == NotCreated then c
    else
      match input
      case ClientMsg(raw) =>
        if !c.connected then c.(queue := c.queue + [raw])
        else c.(sent := Forward(parse, c.sent, raw))
      case ConnectOk =>
        if c.dial != Dialing then c
        else c.(dial := Succeeded, connected := true, queue := [], sent := Drain(parse, c.queue, c.sent))
      case ConnectFail =>
        if c.dial != Dialing then c
        else c.(dial := Failed, clientClosed := true)
      case UpstreamEvent(e) =>
        c.(delivered := c.delivered + [encode(e)])
      case UpstreamClose =>
        c.(clientClosed := true, upstreamDisconnected := true, connected := false)
      case ClientClose =>
        c.(clientClosed := true, upstreamDisconnected := true, connected := false)
  }

  /** The connection after every input of `trace`, in order. */
  function Run<Ev>(parse: string -> Option<Ev>, encode: Ev -> string,
                   c: Connection<Ev>, trace: seq<Input<Ev>>): (d: Connection<Ev>)
    ensures Inv(c) ==> Inv(d)
    ensures c.dial == NotCreated <==> d.dial == NotCreated
    ensures c.clientClosed ==> d.clientClosed
    ensures c.upstreamDisconnected ==> d.upstreamDisconnected
    ensures c.dial == Failed ==> d.dial == Failed
    decreases |trace|
  {
    if |trace| == 0 then c
    else Step(parse, encode, Run(parse, encode, c, trace[..|trace| - 1]), trace[|trace| - 1])
  }

  /** The raw payloads of the client messages of a trace, in arrival order. */
  function ClientMsgs<Ev>(trace: seq<Input<Ev>>): (raws: seq<string>)
    ensures |raws| <= |trace|
    decreases |trace|
  {
    if |trace| == 0 then []
    else
      var last := trace[|trace| - 1];
      ClientMsgs(trace[..|trace| - 1]) + (if last.ClientMsg? then [last.raw] else [])
  }

  /** The upstream events of a trace, in receipt order. */
  function UpstreamEvents<Ev>(trace: seq<Input<Ev>>): (es: seq<Ev>)
    ensures |es| <= |trace|
    decreases |trace|
  {
    if |trace| == 0 then []
    else
      var last := trace[|trace| - 1];
      UpstreamEvents(trace[..|trace| - 1]) + (if last.UpstreamEvent? then [last.event] else [])
  }

  /** `JSON.stringify` applied to each event. */
  function Encoded<Ev>(encode: Ev -> string, es: seq<Ev>): (r: seq<string>)
    ensures |r| == |es|
    ensures forall i :: 0 <= i < |es| ==> r[i] == encode(es[i])
  {
    seq(|es|, i requires 0 <= i < |es| => encode(es[i]))
  }

  /** The trace contains a successful connect. */
  ghost predicate Ready<Ev>(trace: seq<Input<Ev>>)
  {
    exists i :: 0 <= i < |trace| && trace[i].ConnectOk?
  }

  /** The trace contains no failed connect and no close on either side. */
  ghost predicate Live<Ev>(trace: seq<Input<Ev>>)
  {
    forall i :: 0 <= i < |trace| ==>
      !trace[i].ConnectFail? && !trace[i].UpstreamClose? && !trace[i].ClientClose?
  }
}
