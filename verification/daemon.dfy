/** The node: it owns the current output vector, handles one inbound connection at
    a time, and pushes every new output to its downstream peers in configured order.
    Sockets and the wire encoding are abstracted: what a step does is the new state
    plus the trace of messages it sent, or a panic together with what was sent before
    it. Network conditions are parameters. */
module Daemon {
  import opened Outcomes
  import opened FunctionDispatch

  /** The two messages nodes exchange. */
  datatype Event<S> = Output(samples: seq<S>) | RequestOutput

  /** Where a message goes: a configured downstream address, or back to the peer
      whose connection is being handled. */
  datatype Dest = Downstream(address: string) | Requester

  datatype Message<S> = Message(to: Dest, event: Event<S>)

  /** How delivery to one downstream address goes during one fan-out. */
  datatype Delivery = Delivered | ConnectFailed | WriteFailed

  /** Network conditions for one fan-out: `link(i)` is how the attempt at the i-th
      entry of the recipient list goes. Every entry is a fresh connection, so an
      address listed twice may succeed once and fail the next time. */
  type Link = nat -> Delivery

  /** How writing the reply to a requester goes. Flushing a TCP stream is a no-op that
      always succeeds, so `ReplyFlushError` cannot occur in practice; it is kept so
      that every `expect` of the reply path has its outcome. */
  datatype Reply = Replied | ReplyWriteError | ReplyFlushError

  /** What accepting and decoding one inbound connection yields. */
  datatype Inbound<S> = Accepted(event: Event<S>) | AcceptError | Malformed

  /** One inbound connection, with the network conditions while it is handled. */
  datatype Connection<S> = Connection(inbound: Inbound<S>, link: Link, reply: Reply)

  /** What is fixed at startup: the function and the downstream addresses. */
  datatype Node<!S> = Node(func: Function, native: Native<S>, downstream: seq<string>)

  /** The result of a fan-out: the messages delivered and the panic that cut it short. */
  datatype Fanout<S> = Fanout(sent: seq<Message<S>>, failure: Option<Panic>)

  /** The result of one or more steps: the node keeps running with a state, or it has
      panicked; either way, with the messages it sent. */
  datatype Outcome<S> =
    | Running(state: seq<S>, sent: seq<Message<S>>)
    | Aborted(panic: Panic, sent: seq<Message<S>>)

  /** Reference definition of a complete fan-out: one `Output(v)` to each address,
      in list order. */
  function Broadcast<S>(recipients: seq<string>, v: seq<S>): (ms: seq<Message<S>>)
    ensures |ms| == |recipients|
  {
    if |recipients| == 0 then []
    else [Message(Downstream(recipients[0]), Output(v))] + Broadcast(recipients[1..], v)
  }

  /** The number of messages in `sent` addressed to `d`. */
  function Count<S>(sent: seq<Message<S>>, d: Dest): nat
  {
    if |sent| == 0 then 0
    else (if sent[0].to == d then 1 else 0) + Count(sent[1..], d)
  }

  function DeliveryPanic(d: Delivery): Panic
    requires d != Delivered
  {
    match d
    case ConnectFailed => RecipientUnreachable
    case WriteFailed => RecipientWriteFailed
  }

  /** Sends `Output(outputs)` to every recipient in order, connecting to each in
      turn; the first failed connect or write panics, and no later recipient is
      contacted. */
  function SendRecipients<S>(recipients: seq<string>, outputs: seq<S>, link: Link): (r: Fanout<S>)
    ensures |r.sent| <= |recipients|
    ensures r.sent <= Broadcast(recipients, outputs)
    ensures forall i :: 0 <= i < |r.sent| ==> link(i) == Delivered
    ensures r.failure.None? <==> |r.sent| == |recipients|
    ensures r.failure.Some? ==>
              && link(|r.sent|) != Delivered
              && r.failure.value == DeliveryPanic(link(|r.sent|))
    decreases |recipients|
  {
    if |recipients| == 0 then Fanout([], None)
    else
      var first := recipients[0];
      if link(0) == Delivered then
        var later: Link := (j: nat) => link(j + 1);
        var rest := SendRecipients(recipients[1..], outputs, later);
        assert forall i :: 1 <= i <= |rest.sent| ==> later(i - 1) == link(i) == Delivered;
        Fanout([Message(Downstream(first), Output(outputs))] + rest.sent, rest.failure)
      else
        Fanout([], Some(DeliveryPanic(link(0))))
  }

  /** Startup, after the function has been built: bind the listening socket, then
      send the initial state downstream unless it is empty. */
  function Startup<S>(node: Node<S>, initial: seq<S>, bound: bool, link: Link): (r: Outcome<S>)
    ensures !bound ==> r == Aborted(BindFailed, [])
    ensures r.Running? ==> r.state == initial
    ensures bound && |initial| == 0 ==> r == Running(initial, [])
    ensures |initial| > 0 && r.Running? ==> r.sent == Broadcast(node.downstream, initial)
    ensures r.sent <= Broadcast(node.downstream, initial)
    ensures bound && |initial| > 0 ==>
              && (forall j :: 0 <= j < |r.sent| ==> link(j) == Delivered)
              && (r.Running? <==> forall j :: 0 <= j < |node.downstream| ==> link(j) == Delivered)
              && (r.Aborted? ==>
                    && |r.sent| < |node.downstream|
                    && link(|r.sent|) != Delivered
                    && r.panic == DeliveryPanic(link(|r.sent|)))
  {
    if !bound then Aborted(BindFailed, [])
    else if |initial| == 0 then Running(initial, [])
    else
      var fan := SendRecipients(node.downstream, initial, link);
      Settle(initial, fan)
  }

  /** Turns a fan-out of `state` into an outcome: the node keeps `state` when every
      delivery went through and panics otherwise. */
  function Settle<S>(state: seq<S>, fan: Fanout<S>): Outcome<S>
  {
    match fan.failure
    case None => Running(state, fan.sent)
    case Some(p) => Aborted(p, fan.sent)
  }

  /** Handles one inbound connection. `Output(v)` replaces the state by the function
      applied to `v` and fans it out downstream; `RequestOutput` writes the current
      state back to the requester; a connection that cannot be accepted or decoded
      panics. */
  function Step<S>(node: Node<S>, state: seq<S>, conn: Connection<S>): (r: Outcome<S>)
    ensures conn.inbound == AcceptError ==> r == Aborted(AcceptFailed, [])
    ensures conn.inbound == Malformed ==> r == Aborted(DecodeFailed, [])
    ensures conn.inbound == Accepted(RequestOutput) ==>
              && (r.Running? <==> conn.reply == Replied)
              && (r.Running? ==> r.state == state)
              && (conn.reply != ReplyWriteError ==> r.sent == [Message(Requester, Output(state))])
              && (conn.reply == ReplyWriteError ==> r.sent == [])
    ensures conn.inbound.Accepted? && conn.inbound.event.Output? ==>
              var called := Call(node.func, node.native, conn.inbound.event.samples);
              && (called.Abort? ==> r == Aborted(called.panic, []))
              && (called.Ok? ==> r.sent <= Broadcast(node.downstream, called.value))
              && (r.Running? <==> called.Ok? && |r.sent| == |node.downstream|)
              && (r.Running? ==> r.state == called.value)
              && |r.sent| <= |node.downstream|
              && (called.Ok? ==>
                    && (forall j :: 0 <= j < |r.sent| ==> conn.link(j) == Delivered)
                    && (r.Running? <==> forall j :: 0 <= j < |node.downstream| ==> conn.link(j) == Delivered)
                    && (r.Aborted? ==>
                          && |r.sent| < |node.downstream|
                          && conn.link(|r.sent|) != Delivered
                          && r.panic == DeliveryPanic(conn.link(|r.sent|))))
  {
    match conn.inbound
    case AcceptError => Aborted(AcceptFailed, [])
    case Malformed => Aborted(DecodeFailed, [])
    case Accepted(event) =>
      match event
      case Output(inputs) => Update(node, inputs, conn.link)
      case RequestOutput => Respond(state, conn.reply)
  }

  /** The `Output(inputs)` branch: the new state is the function applied to the
      inputs, and that state goes to every downstream address. */
  function Update<S>(node: Node<S>, inputs: seq<S>, link: Link): Outcome<S>
  {
    match Call(node.func, node.native, inputs)
    case Abort(p) => Aborted(p, [])
    case Ok(outputs) => Settle(outputs, SendRecipients(node.downstream, outputs, link))
  }

  /** The `RequestOutput` branch: write `Output(state)` back and flush. */
  function Respond<S>(state: seq<S>, reply: Reply): Outcome<S>
  {
    var message := [Message(Requester, Output(state))];
    match reply
    case Replied => Running(state, message)
    case ReplyWriteError => Aborted(ReplyWriteFailed, [])
    case ReplyFlushError => Aborted(ReplyFlushFailed, message)
  }

  /** Prefixes the messages of earlier steps to an outcome. */
  function Prepend<S>(sent: seq<Message<S>>, o: Outcome<S>): Outcome<S>
  {
    match o
    case Running(state, later) => Running(state, sent + later)
    case Aborted(p, later) => Aborted(p, sent + later)
  }

  /** Handles the connections in order, stopping at the first panic. The node keeps
      running only if every connection was accepted and decoded. */
  function Run<S>(node: Node<S>, state: seq<S>, conns: seq<Connection<S>>): (r: Outcome<S>)
    ensures r.Running? ==> forall i :: 0 <= i < |conns| ==> conns[i].inbound.Accepted?
    decreases |conns|
  {
    if |conns| == 0 then Running(state, [])
    else
      match Step(node, state, conns[0])
      case Aborted(p, sent) => Aborted(p, sent)
      case Running(next, sent) => Prepend(sent, Run(node, next, conns[1..]))
  }

  /** The whole daemon: build the function, start up, then serve the connections. */
  function Launch<S>(spec: Option<FunctionSpec>, path: Option<string>, symbol: Option<string>,
                     native: Native<S>, initial: seq<S>, downstream: seq<string>,
                     bound: bool, link: Link, conns: seq<Connection<S>>): (r: Outcome<S>)
    ensures spec == Some(Exec) ==> r == Aborted(NotImplemented, [])
    ensures !bound && spec.None? ==> r == Aborted(BindFailed, [])
  {
    match FromConfig(spec, path, symbol, native)
    case Abort(p) => Aborted(p, [])
    case Ok(f) =>
      var node := Node(f, native, downstream);
      match Startup(node, initial, bound, link)
      case Aborted(p, sent) => Aborted(p, sent)
      case Running(state, sent) => Prepend(sent, Run(node, state, conns))
  }

  // ---------------------------------------------------------------------------
  // Fan-out properties

  /** A complete fan-out has one message per recipient, the i-th addressed to the
      i-th recipient and carrying `Output(v)`. */
  lemma {:induction false} BroadcastShape<S>(recipients: seq<string>, v: seq<S>)
    ensures |Broadcast(recipients, v)| == |recipients|
    ensures forall i :: 0 <= i < |recipients| ==>
              Broadcast(recipients, v)[i] == Message(Downstream(recipients[i]), Output(v))
    decreases |recipients|
  {
    if |recipients| > 0 {
      BroadcastShape(recipients[1..], v);
    }
  }

  /** Every prefix of a complete fan-out is the complete fan-out to a prefix of the
      recipients. */
  lemma {:induction false} BroadcastPrefix<S>(recipients: seq<string>, v: seq<S>, k: nat)
    requires k <= |recipients|
    ensures Broadcast(recipients, v)[..k] == Broadcast(recipients[..k], v)
    decreases |recipients|
  {
    BroadcastShape(recipients, v);
    BroadcastShape(recipients[..k], v);
  }

  /** In a complete fan-out each address receives as many messages as it occurs in
      the list of recipients (exactly one when the addresses are distinct), and the
      requester receives none. */
  lemma {:induction false} BroadcastCounts<S>(recipients: seq<string>, v: seq<S>, a: string)
    ensures Count(Broadcast(recipients, v), Downstream(a)) == multiset(recipients)[a]
    decreases |recipients|
  {
    if |recipients| > 0 {
      BroadcastCounts(recipients[1..], v, a);
      assert recipients == [recipients[0]] + recipients[1..];
      assert multiset(recipients) == multiset{recipients[0]} + multiset(recipients[1..]);
    }
  }

  /** A fan-out addresses only downstream peers: the requester receives nothing. */
  lemma {:induction false} BroadcastSkipsRequester<S>(recipients: seq<string>, v: seq<S>)
    ensures Count(Broadcast(recipients, v), Requester) == 0
    decreases |recipients|
  {
    if |recipients| > 0 {
      BroadcastSkipsRequester(recipients[1..], v);
    }
  }

  /** A repeated address is connected to afresh at each listing: with `[a, b, a]`,
      the first two deliveries can go through and the third fail, after which the
      fan-out panics having reached `a` and `b` once each. */
  lemma RepeatedAddressCanFailLater<S>(a: string, b: string, v: seq<S>)
    ensures var link := (j: nat) => if j < 2 then Delivered else ConnectFailed;
            SendRecipients([a, b, a], v, link)
              == Fanout([Message(Downstream(a), Output(v)), Message(Downstream(b), Output(v))],
                        Some(RecipientUnreachable))
  {
    var link := (j: nat) => if j < 2 then Delivered else ConnectFailed;
    FanoutStopsAtFirstFailure([a, b, a], v, link, 2);
    assert [a, b, a][..2] == [a, b];
  }

  /** When the attempt at entry `i` is the first to fail, exactly the entries
      before `i` were sent the output, and the fan-out panics with that failure;
      nobody after `i` is contacted, whether or not the address recurs. */
  lemma FanoutStopsAtFirstFailure<S>(recipients: seq<string>, v: seq<S>, link: Link, i: nat)
    requires i < |recipients|
    requires forall j :: 0 <= j < i ==> link(j) == Delivered
    requires link(i) != Delivered
    ensures SendRecipients(recipients, v, link)
              == Fanout(Broadcast(recipients[..i], v), Some(DeliveryPanic(link(i))))
  {
    var r := SendRecipients(recipients, v, link);
    assert |r.sent| == i;
    BroadcastPrefix(recipients, v, i);
  }

  /** When every delivery goes through, the fan-out is complete and does not panic. */
  lemma FanoutComplete<S>(recipients: seq<string>, v: seq<S>, link: Link)
    requires forall j :: 0 <= j < |recipients| ==> link(j) == Delivered
    ensures SendRecipients(recipients, v, link) == Fanout(Broadcast(recipients, v), None)
  {
  }

  /** At startup a non-empty initial state reaches every downstream address once per
      listing when no delivery fails; an empty one is sent to nobody. */
  lemma StartupReachesEveryPeer<S>(node: Node<S>, initial: seq<S>, link: Link, a: string)
    requires forall j :: 0 <= j < |node.downstream| ==> link(j) == Delivered
    ensures |initial| > 0 ==> Startup(node, initial, true, link) == Running(initial, Broadcast(node.downstream, initial))
    ensures |initial| > 0 ==> Count(Startup(node, initial, true, link).sent, Downstream(a)) == multiset(node.downstream)[a]
    ensures |initial| == 0 ==> Startup(node, initial, true, link).sent == []
  {
    FanoutComplete(node.downstream, initial, link);
    BroadcastCounts(node.downstream, initial, a);
  }

  /** At startup, when the attempt at entry `i` is the first to fail, the node
      panics with that failure after sending the initial state to exactly the
      entries before `i`. */
  lemma StartupStopsAtFirstFailure<S>(node: Node<S>, initial: seq<S>, link: Link, i: nat)
    requires |initial| > 0
    requires i < |node.downstream|
    requires forall j :: 0 <= j < i ==> link(j) == Delivered
    requires link(i) != Delivered
    ensures Startup(node, initial, true, link)
              == Aborted(DeliveryPanic(link(i)), Broadcast(node.downstream[..i], initial))
  {
    FanoutStopsAtFirstFailure(node.downstream, initial, link, i);
  }

  // ---------------------------------------------------------------------------
  // Step properties

  /** After `Output(v)`, when the function succeeds and no delivery fails, the node
      holds the function's result and every downstream address receives that result
      once per listing, in list order, while the requester receives nothing. */
  lemma OutputReachesEveryPeer<S>(node: Node<S>, state: seq<S>, conn: Connection<S>, v: seq<S>, w: seq<S>)
    requires conn.inbound == Accepted(Output(v))
    requires Call(node.func, node.native, v) == Ok(w)
    requires forall j :: 0 <= j < |node.downstream| ==> conn.link(j) == Delivered
    ensures Step(node, state, conn) == Running(w, Broadcast(node.downstream, w))
    ensures forall a :: Count(Step(node, state, conn).sent, Downstream(a)) == multiset(node.downstream)[a]
    ensures Count(Step(node, state, conn).sent, Requester) == 0
  {
    FanoutComplete(node.downstream, w, conn.link);
    forall a {
      BroadcastCounts(node.downstream, w, a);
    }
    BroadcastSkipsRequester(node.downstream, w);
  }

  /** After `Output(v)`, when the call succeeds with `w` and the attempt at entry
      `i` is the first to fail, the node panics with that failure after sending
      `Output(w)` to exactly the entries before `i`. */
  lemma OutputStopsAtFirstFailure<S>(node: Node<S>, state: seq<S>, conn: Connection<S>,
                                     v: seq<S>, w: seq<S>, i: nat)
    requires conn.inbound == Accepted(Output(v))
    requires Call(node.func, node.native, v) == Ok(w)
    requires i < |node.downstream|
    requires forall j :: 0 <= j < i ==> conn.link(j) == Delivered
    requires conn.link(i) != Delivered
    ensures Step(node, state, conn)
              == Aborted(DeliveryPanic(conn.link(i)), Broadcast(node.downstream[..i], w))
  {
    FanoutStopsAtFirstFailure(node.downstream, w, conn.link, i);
  }

  /** A query answered successfully is the only message of its step and leaves the
      state as it was, so a second query returns the same vector as the first. */
  lemma QueryLeavesStateUnchanged<S>(node: Node<S>, state: seq<S>, conn: Connection<S>)
    requires conn.inbound == Accepted(RequestOutput) && conn.reply == Replied
    ensures Step(node, state, conn) == Running(state, [Message(Requester, Output(state))])
    ensures Step(node, Step(node, state, conn).state, conn) == Step(node, state, conn)
  {
  }

  // ---------------------------------------------------------------------------
  // Run properties

  /** The payload of the last `Output` event among the connections, if any. */
  function LastInput<S>(conns: seq<Connection<S>>): Option<seq<S>>
    decreases |conns|
  {
    if |conns| == 0 then None
    else
      match LastInput(conns[1..])
      case Some(v) => Some(v)
      case None =>
        if conns[0].inbound.Accepted? && conns[0].inbound.event.Output? then
          Some(conns[0].inbound.event.samples)
        else None
  }

  /** A run of successfully answered queries never changes the state: the node answers
      each of them with the state it started with, and sends nothing downstream. */
  lemma {:induction false} QueriesLeaveStateUnchanged<S>(node: Node<S>, state: seq<S>, conns: seq<Connection<S>>)
    requires forall i :: 0 <= i < |conns| ==>
               conns[i].inbound == Accepted(RequestOutput) && conns[i].reply == Replied
    ensures Run(node, state, conns).Running?
    ensures Run(node, state, conns).state == state
    ensures |Run(node, state, conns).sent| == |conns|
    ensures forall i :: 0 <= i < |conns| ==>
              Run(node, state, conns).sent[i] == Message(Requester, Output(state))
    decreases |conns|
  {
    if |conns| > 0 {
      QueriesLeaveStateUnchanged(node, state, conns[1..]);
    }
  }

  /** While the node keeps running, its state is the function applied to the last
      `Output` payload it received, or the state it started with if none arrived:
      queries never change it. */
  lemma {:induction false} StateIsLatestOutput<S>(node: Node<S>, state: seq<S>, conns: seq<Connection<S>>)
    requires Run(node, state, conns).Running?
    ensures LastInput(conns).None? ==> Run(node, state, conns).state == state
    ensures LastInput(conns).Some? ==>
              Call(node.func, node.native, LastInput(conns).value) == Ok(Run(node, state, conns).state)
    decreases |conns|
  {
    if |conns| > 0 {
      var first := Step(node, state, conns[0]);
      StateIsLatestOutput(node, first.state, conns[1..]);
    }
  }

  /** Serving one more connection: a node that is still running handles it with the
      state it holds, and one that has panicked ignores it. So the loop goes on after
      every step that keeps running, and keeps running iff each step does. */
  lemma {:induction false} RunSnoc<S>(node: Node<S>, state: seq<S>, conns: seq<Connection<S>>,
                                      c: Connection<S>)
    ensures Run(node, state, conns + [c]) ==
              match Run(node, state, conns)
              case Aborted(p, sent) => Aborted(p, sent)
              case Running(last, sent) => Prepend(sent, Step(node, last, c))
    decreases |conns|
  {
    if |conns| == 0 {
      assert conns + [c] == [c];
      assert [c][1..] == [];
    } else {
      assert (conns + [c])[0] == conns[0];
      assert (conns + [c])[1..] == conns[1..] + [c];
      match Step(node, state, conns[0])
      case Aborted(_, _) =>
      case Running(next, sent) =>
        RunSnoc(node, next, conns[1..], c);
        match Run(node, next, conns[1..])
        case Aborted(_, _) =>
        case Running(last, later) =>
          var o := Step(node, last, c);
          assert sent + (later + o.sent) == (sent + later) + o.sent;
    }
  }

  /** A panic ends the daemon: connections arriving after it change nothing. */
  lemma {:induction false} AbortIsFinal<S>(node: Node<S>, state: seq<S>, conns: seq<Connection<S>>,
                                           later: seq<Connection<S>>)
    requires Run(node, state, conns).Aborted?
    ensures Run(node, state, conns + later) == Run(node, state, conns)
    decreases |conns|
  {
    assert (conns + later)[0] == conns[0];
    assert (conns + later)[1..] == conns[1..] + later;
    match Step(node, state, conns[0])
    case Aborted(_, _) =>
    case Running(next, _) =>
      AbortIsFinal(node, next, conns[1..], later);
  }

  /** A node started without a function spec forwards what it receives: while it
      keeps running, its state is the last `Output` payload it received, or its
      initial state if none arrived. */
  lemma EchoNodeHoldsLatestInput<S>(path: Option<string>, symbol: Option<string>, native: Native<S>,
                                    initial: seq<S>, downstream: seq<string>, bound: bool,
                                    link: Link, conns: seq<Connection<S>>)
    requires Launch(None, path, symbol, native, initial, downstream, bound, link, conns).Running?
    ensures Launch(None, path, symbol, native, initial, downstream, bound, link, conns).state
              == match LastInput(conns) case None => initial case Some(v) => v
  {
    var node := Node(Echo, native, downstream);
    var start := Startup(node, initial, bound, link);
    StateIsLatestOutput(node, start.state, conns);
  }
}
