/** What the relay promises about whole traces of one connection: the order in
    which client messages reach the upstream, the fate of queued messages when
    the connect fails, mutual close, and the inertness of rejected connections. */
module RelayProperties {
  import opened Optional
  import opened RelayServer

  /** Parsing distributes over concatenation of raw message sequences. */
  lemma {:induction false} ParsedAppend<Ev>(parse: string -> Option<Ev>, a: seq<string>, b: seq<string>)
    ensures Parsed(parse, a + b) == Parsed(parse, a) + Parsed(parse, b)
    decreases |a|
  {
    if |a| == 0 {
      assert a + b == b;
    } else {
      assert (a + b)[1..] == a[1..] + b;
      ParsedAppend(parse, a[1..], b);
    }
  }

  /** A malformed message in the middle of a stream is skipped and the valid
      messages around it keep their order. */
  lemma MalformedSkipped<Ev>(parse: string -> Option<Ev>, before: seq<string>, bad: string, after: seq<string>)
    requires parse(bad).None?
    ensures Parsed(parse, before + [bad] + after) == Parsed(parse, before) + Parsed(parse, after)
  {
    ParsedAppend(parse, before + [bad], after);
    ParsedAppend(parse, before, [bad]);
  }

  /** Running two traces one after the other is running their concatenation. */
  lemma {:induction false} RunAppend<Ev>(parse: string -> Option<Ev>, encode: Ev -> string,
                                         c: Connection<Ev>, a: seq<Input<Ev>>, b: seq<Input<Ev>>)
    ensures Run(parse, encode, c, a + b) == Run(parse, encode, Run(parse, encode, c, a), b)
    decreases |b|
  {
    if |b| == 0 {
      assert a + b == a;
    } else {
      assert (a + b)[..|a + b| - 1] == a + b[..|b| - 1];
      RunAppend(parse, encode, c, a, b[..|b| - 1]);
    }
  }

  /** While the upstream is not connected, a client message, malformed or not,
      is appended raw to the end of the queue; nothing is sent upstream or to
      the browser and neither side is closed. */
  lemma QueuedWhileConnecting<Ev>(parse: string -> Option<Ev>, encode: Ev -> string,
                                  c: Connection<Ev>, raw: string)
    requires c.dial != NotCreated && !c.connected
    ensures var d := Step(parse, encode, c, ClientMsg(raw));
      d.queue == c.queue + [raw] && d.sent == c.sent && d.connected == c.connected
      && d.clientClosed == c.clientClosed && d.upstreamDisconnected == c.upstreamDisconnected
      && d.delivered == c.delivered
  {
  }

  /** Once connected, a client message goes straight to `messageHandler`. */
  lemma ForwardedWhenConnected<Ev>(parse: string -> Option<Ev>, encode: Ev -> string,
                                   c: Connection<Ev>, raw: string)
    requires c.dial != NotCreated && c.connected
    ensures var d := Step(parse, encode, c, ClientMsg(raw));
      d.queue == c.queue && d.sent == c.sent + Parsed(parse, [raw])
      && d.clientClosed == c.clientClosed && d.upstreamDisconnected == c.upstreamDisconnected
      && d.delivered == c.delivered
  {
  }

  /** A message that fails to parse on a connected relay changes nothing: it
      sends nothing and closes neither side. */
  lemma MalformedDropped<Ev>(parse: string -> Option<Ev>, encode: Ev -> string,
                             c: Connection<Ev>, raw: string)
    requires c.connected && parse(raw).None?
    ensures Step(parse, encode, c, ClientMsg(raw)) == c
  {
  }

  /** A successful connect drains the whole queue, oldest first, through the
      message handler and leaves it empty; the queued messages that fail to
      parse are dropped there without closing either side. */
  lemma DrainedOnConnect<Ev>(parse: string -> Option<Ev>, encode: Ev -> string, c: Connection<Ev>)
    requires c.dial == Dialing
    ensures var d := Step(parse, encode, c, ConnectOk);
      d.connected && d.queue == [] && d.sent == c.sent + Parsed(parse, c.queue)
      && d.clientClosed == c.clientClosed && d.upstreamDisconnected == c.upstreamDisconnected
      && d.delivered == c.delivered
  {
  }

  /** A failed connect closes the browser socket and sends nothing. */
  lemma ClosedOnConnectFail<Ev>(parse: string -> Option<Ev>, encode: Ev -> string, c: Connection<Ev>)
    requires c.dial == Dialing
    ensures var d := Step(parse, encode, c, ConnectFail);
      d.clientClosed && d.dial == Failed && d.sent == c.sent && d.queue == c.queue
  {
  }

  /** An upstream close closes the browser socket and a browser close calls
      `client.disconnect()`; either sets both close flags, touches no log and
      queue, and repeating the signal changes nothing. A browser close during
      the dial does not stop the upstream from connecting later (see
      `NoGuardAfterClose`). */
  lemma CloseIsMutual<Ev>(parse: string -> Option<Ev>, encode: Ev -> string,
                          c: Connection<Ev>, input: Input<Ev>)
    requires c.dial != NotCreated
    requires input.UpstreamClose? || input.ClientClose?
    ensures var d := Step(parse, encode, c, input);
      && d.clientClosed && d.upstreamDisconnected && !d.connected
      && d.sent == c.sent && d.queue == c.queue && d.delivered == c.delivered
      && Step(parse, encode, d, input) == d
  {
  }

  /** The central ordering property, for every trace: what has been sent
      upstream followed by what the queue still yields is exactly the parsed
      client messages in arrival order. Messages are never reordered, and a
      message is sent at most once. */
  lemma {:induction false} ArrivalOrder<Ev>(parse: string -> Option<Ev>, encode: Ev -> string,
                                            trace: seq<Input<Ev>>)
    ensures var d := Run(parse, encode, Opened(), trace);
      d.sent + Parsed(parse, d.queue) == Parsed(parse, ClientMsgs(trace))
    decreases |trace|
  {
    if |trace| > 0 {
      var prefix := trace[..|trace| - 1];
      var last := trace[|trace| - 1];
      var c := Run(parse, encode, Opened(), prefix);
      ArrivalOrder(parse, encode, prefix);
      var d := Step(parse, encode, c, last);
      assert Inv(c) && c.dial != NotCreated;
      assert Run(parse, encode, Opened(), trace) == d;
      assert ClientMsgs(trace) == ClientMsgs(prefix) + (if last.ClientMsg? then [last.raw] else []);
      if last.ClientMsg? {
        ParsedAppend(parse, ClientMsgs(prefix), [last.raw]);
        if !c.connected {
          ParsedAppend(parse, c.queue, [last.raw]);
        }
      } else if last.ConnectOk? && c.dial == Dialing {
        assert d.sent == c.sent + Parsed(parse, c.queue);
        assert d.queue == [] && Parsed(parse, d.queue) == [];
        assert ClientMsgs(trace) == ClientMsgs(prefix);
        assert d.sent + Parsed(parse, d.queue) == d.sent;
      } else {
        assert ClientMsgs(trace) == ClientMsgs(prefix);
        assert d.sent == c.sent && d.queue == c.queue;
      }
    }
  }

  /** For every trace, the relay calls `ws.send` with each upstream `server.*`
      event, encoded, in receipt order, and with nothing else. Once the
      browser socket is closed these calls reach no one (see
      `SendsAfterBrowserClose`). */
  lemma {:induction false} ServerEventsRelayed<Ev>(parse: string -> Option<Ev>, encode: Ev -> string,
                                                   trace: seq<Input<Ev>>)
    ensures Run(parse, encode, Opened(), trace).delivered == Encoded(encode, UpstreamEvents(trace))
    decreases |trace|
  {
    if |trace| > 0 {
      ServerEventsRelayed(parse, encode, trace[..|trace| - 1]);
    }
  }

  /** The relay has no guard on the browser side either: when the browser
      leaves during the dial and the upstream then connects and emits an
      event, `ws.send` is still called on the closed socket. */
  lemma SendsAfterBrowserClose<Ev>(parse: string -> Option<Ev>, encode: Ev -> string, e: Ev)
    ensures var d := Run(parse, encode, Opened(), [ClientClose, ConnectOk, UpstreamEvent(e)]);
      d.clientClosed && d.connected && d.delivered == [encode(e)]
  {
    var t: seq<Input<Ev>> := [ClientClose, ConnectOk, UpstreamEvent(e)];
    var c0: Connection<Ev> := Opened();
    var c1 := Step(parse, encode, c0, ClientClose);
    var c2 := Step(parse, encode, c1, ConnectOk);
    assert t[..2] == [ClientClose, ConnectOk];
    assert t[..2][..1] == [ClientClose];
    assert t[..2][..1][..0] == [];
    assert Run(parse, encode, c0, t[..2][..1]) == c1;
    assert Run(parse, encode, c0, t[..2]) == c2;
  }

  /** Until the connect succeeds every client message stays raw in the queue,
      in arrival order, and nothing is sent upstream. */
  lemma {:induction false} QueuedUntilReady<Ev>(parse: string -> Option<Ev>, encode: Ev -> string,
                                                trace: seq<Input<Ev>>)
    requires !Ready(trace)
    ensures var d := Run(parse, encode, Opened(), trace);
      d.sent == [] && d.queue == ClientMsgs(trace) && !d.connected && d.dial != Succeeded
    decreases |trace|
  {
    if |trace| > 0 {
      var prefix := trace[..|trace| - 1];
      assert !Ready(prefix) by {
        forall i | 0 <= i < |prefix| ensures !prefix[i].ConnectOk? {
          assert prefix[i] == trace[i];
        }
      }
      assert !trace[|trace| - 1].ConnectOk?;
      QueuedUntilReady(parse, encode, prefix);
    }
  }

  /** On a trace with no failure and no close, the relay is connected exactly
      when a connect has succeeded, and neither side is ever closed: client
      messages, malformed ones included, close nothing. */
  lemma {:induction false} ConnectedIffReady<Ev>(parse: string -> Option<Ev>, encode: Ev -> string,
                                                 trace: seq<Input<Ev>>)
    requires Live(trace)
    ensures var d := Run(parse, encode, Opened(), trace);
      (d.connected <==> Ready(trace)) && (d.dial == Succeeded <==> Ready(trace))
      && (d.dial == Dialing || d.dial == Succeeded)
      && !d.clientClosed && !d.upstreamDisconnected
    decreases |trace|
  {
    if |trace| > 0 {
      var prefix := trace[..|trace| - 1];
      var last := trace[|trace| - 1];
      assert Live(prefix) by {
        forall i | 0 <= i < |prefix|
          ensures !prefix[i].ConnectFail? && !prefix[i].UpstreamClose? && !prefix[i].ClientClose?
        {
          assert prefix[i] == trace[i];
        }
      }
      ConnectedIffReady(parse, encode, prefix);
      if Ready(trace) && !Ready(prefix) {
        var i :| 0 <= i < |trace| && trace[i].ConnectOk?;
        assert i == |trace| - 1;
      }
      if Ready(prefix) {
        var i :| 0 <= i < |prefix| && prefix[i].ConnectOk?;
        assert trace[i] == prefix[i];
      }
      if last.ConnectOk? {
        assert trace[|trace| - 1].ConnectOk?;
      }
    }
  }

  /** The headline guarantee: after a successful connect on a trace without
      failure or close, the upstream has received exactly the successfully
      parsed client messages, in arrival order, whether they arrived before the
      connect (and were queued) or after it, and the queue is empty. */
  lemma ReadyOrder<Ev>(parse: string -> Option<Ev>, encode: Ev -> string, trace: seq<Input<Ev>>)
    requires Live(trace) && Ready(trace)
    ensures var d := Run(parse, encode, Opened(), trace);
      d.sent == Parsed(parse, ClientMsgs(trace)) && d.queue == []
  {
    ArrivalOrder(parse, encode, trace);
    ConnectedIffReady(parse, encode, trace);
  }

  /** Messages queued while connecting, then messages sent after readiness,
      reach the upstream as one stream: the queued ones first, in order, then
      the live ones, in order. */
  lemma QueuedThenLive<Ev>(parse: string -> Option<Ev>, encode: Ev -> string,
                           early: seq<string>, late: seq<string>)
    ensures var trace := Msgs<Ev>(early) + [ConnectOk] + Msgs<Ev>(late);
      Run(parse, encode, Opened(), trace).sent == Parsed(parse, early) + Parsed(parse, late)
  {
    var ok: seq<Input<Ev>> := [ConnectOk];
    var trace := Msgs<Ev>(early) + ok + Msgs<Ev>(late);
    MsgsAroundConnect<Ev>(early, late);
    ReadyOrder(parse, encode, trace);
    ParsedAppend(parse, early, late);
  }

  /** A trace of client messages with one successful connect in the middle is
      live and ready, and its client messages are the two runs of payloads. */
  lemma MsgsAroundConnect<Ev>(early: seq<string>, late: seq<string>)
    ensures var trace := Msgs<Ev>(early) + [ConnectOk] + Msgs<Ev>(late);
      Live(trace) && Ready(trace) && ClientMsgs(trace) == early + late
  {
    var before := Msgs<Ev>(early);
    var after := Msgs<Ev>(late);
    var ok: seq<Input<Ev>> := [ConnectOk];
    var trace := before + ok + after;
    assert trace[|before|].ConnectOk?;
    forall i | 0 <= i < |trace|
      ensures !trace[i].ConnectFail? && !trace[i].UpstreamClose? && !trace[i].ClientClose?
    {
      if i < |before| {
        assert trace[i] == before[i];
      } else if i > |before| {
        assert trace[i] == after[i - |before| - 1];
      }
    }
    ClientMsgsAppend(before + ok, after);
    ClientMsgsAppend(before, ok);
    assert ok[..0] == [];
    ClientMsgsOfMsgs<Ev>(early);
    ClientMsgsOfMsgs<Ev>(late);
  }

  /** The client messages carrying `raws`, one per element. */
  function Msgs<Ev>(raws: seq<string>): (t: seq<Input<Ev>>)
    ensures |t| == |raws|
    ensures forall i :: 0 <= i < |raws| ==> t[i] == ClientMsg(raws[i])
  {
    seq(|raws|, i requires 0 <= i < |raws| => ClientMsg(raws[i]))
  }

  /** The client messages of two traces run one after the other are those of the first, then those of the second. */
  lemma {:induction false} ClientMsgsAppend<Ev>(a: seq<Input<Ev>>, b: seq<Input<Ev>>)
    ensures ClientMsgs(a + b) == ClientMsgs(a) + ClientMsgs(b)
    decreases |b|
  {
    if |b| == 0 {
      assert a + b == a;
    } else {
      assert (a + b)[..|a + b| - 1] == a + b[..|b| - 1];
      ClientMsgsAppend(a, b[..|b| - 1]);
    }
  }

  /** A trace built by `Msgs` carries exactly the payloads it was built from. */
  lemma {:induction false} ClientMsgsOfMsgs<Ev>(raws: seq<string>)
    ensures ClientMsgs(Msgs<Ev>(raws)) == raws
    decreases |raws|
  {
    if |raws| > 0 {
      var t := Msgs<Ev>(raws);
      assert t[..|t| - 1] == Msgs<Ev>(raws[..|raws| - 1]);
      ClientMsgsOfMsgs<Ev>(raws[..|raws| - 1]);
    }
  }

  /** Once the dial has failed, nothing is ever sent upstream and the browser
      socket stays closed, whatever arrives afterwards: the queued messages
      are never delivered. */
  lemma FailedDialSendsNothing<Ev>(parse: string -> Option<Ev>, encode: Ev -> string,
                                   before: seq<Input<Ev>>, after: seq<Input<Ev>>)
    requires !Ready(before)
    ensures var d := Run(parse, encode, Opened(), before + [ConnectFail] + after);
      d.sent == [] && d.clientClosed && d.dial == Failed
  {
    var c := Run(parse, encode, Opened(), before);
    QueuedUntilReady(parse, encode, before);
    RunAppend(parse, encode, Opened(), before, [ConnectFail]);
    RunAppend(parse, encode, Opened(), before + [ConnectFail], after);
    var fail: seq<Input<Ev>> := [ConnectFail];
    assert fail[..0] == [];
    assert Run(parse, encode, c, [ConnectFail]) == Step(parse, encode, c, ConnectFail);
  }

  /** After a close that follows a successful connect, the upstream client is
      no longer connected and the dial cannot succeed again, so every later
      client message stays in the queue and nothing more is sent upstream. */
  lemma {:induction false} NothingSentAfterLateClose<Ev>(parse: string -> Option<Ev>, encode: Ev -> string,
                                                         c: Connection<Ev>, trace: seq<Input<Ev>>)
    requires c.dial == Succeeded && !c.connected
    ensures var d := Run(parse, encode, c, trace);
      d.sent == c.sent && d.dial == Succeeded && !d.connected
      && d.queue == c.queue + ClientMsgs(trace)
    decreases |trace|
  {
    if |trace| > 0 {
      var prefix := trace[..|trace| - 1];
      NothingSentAfterLateClose(parse, encode, c, prefix);
      var last := trace[|trace| - 1];
      assert ClientMsgs(trace) == ClientMsgs(prefix) + (if last.ClientMsg? then [last.raw] else []);
    }
  }

  /** A rejected connection (no URL, an empty URL, or a pathname other than
      the stream path) has its socket closed, never gets an upstream client, and ignores
      every later input. */
  lemma {:induction false} RejectedIsInert<Ev>(parse: string -> Option<Ev>, encode: Ev -> string,
                                               url: Option<string>, pathnameOf: string -> string,
                                               trace: seq<Input<Ev>>)
    requires url.None? || url.value == "" || pathnameOf(url.value) != StreamPath
    ensures var c := Accept<Ev>(url, pathnameOf);
      c.clientClosed && c.dial == NotCreated && Run(parse, encode, c, trace) == c
    decreases |trace|
  {
    if |trace| > 0 {
      RejectedIsInert(parse, encode, url, pathnameOf, trace[..|trace| - 1]);
    }
  }

  /** An example: `a` and `b` arrive while dialling, the dial
      succeeds, then `c` arrives; the upstream gets the three, once each, in
      that order. */
  lemma Scenario<Ev>(parse: string -> Option<Ev>, encode: Ev -> string,
                     a: string, b: string, c: string, ea: Ev, eb: Ev, ec: Ev)
    requires parse(a) == Some(ea) && parse(b) == Some(eb) && parse(c) == Some(ec)
    ensures Run(parse, encode, Opened(), [ClientMsg(a), ClientMsg(b), ConnectOk, ClientMsg(c)]).sent
            == [ea, eb, ec]
  {
    QueuedThenLive<Ev>(parse, encode, [a, b], [c]);
    var trace: seq<Input<Ev>> := [ClientMsg(a), ClientMsg(b), ConnectOk, ClientMsg(c)];
    assert Msgs<Ev>([a, b]) + [ConnectOk] + Msgs<Ev>([c]) == trace;
    assert Parsed(parse, [b]) == [eb] by {
      assert [b][1..] == [];
    }
    assert Parsed(parse, [a, b]) == [ea, eb] by {
      assert [a, b][1..] == [b];
    }
    assert Parsed(parse, [c]) == [ec] by {
      assert [c][1..] == [];
    }
  }

  /** The relay has no guard after a close: a browser that closes while the
      dial is still pending does not stop the later successful connect from
      draining its queued messages to the upstream. */
  lemma NoGuardAfterClose<Ev>(parse: string -> Option<Ev>, encode: Ev -> string, a: string, ea: Ev)
    requires parse(a) == Some(ea)
    ensures var d := Run(parse, encode, Opened(), [ClientMsg(a), ClientClose, ConnectOk]);
      d.clientClosed && d.upstreamDisconnected && d.connected && d.sent == [ea]
  {
    var t: seq<Input<Ev>> := [ClientMsg(a), ClientClose, ConnectOk];
    var c0: Connection<Ev> := Opened();
    var c1 := Step(parse, encode, c0, ClientMsg(a));
    var c2 := Step(parse, encode, c1, ClientClose);
    assert c1.queue == [a] && c1.sent == [];
    assert c2.queue == [a] && c2.dial == Dialing;
    assert Step(parse, encode, c2, ConnectOk).sent == [ea] by {
      assert [a][1..] == [];
    }
    assert t[..2] == [ClientMsg(a), ClientClose];
    assert t[..2][..1] == [ClientMsg(a)];
    assert t[..2][..1][..0] == [];
    assert Run(parse, encode, c0, t[..2][..1]) == c1;
    assert Run(parse, encode, c0, t[..2]) == c2;
  }
}
