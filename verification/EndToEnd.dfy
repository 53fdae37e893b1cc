/** From `try_send` and `send` on one side to handler calls on the other. */
module EndToEnd {
  import opened Wire
  import opened SendModel
  import opened SendInvariant
  import opened SendOrder
  import opened SenderOrder
  import opened ReceiveLoop
  import Nodes
  import NodeInvariant
  import NodeTrace

  /** Every call there could be. */
  ghost const EVERYONE: iset<CallId> := iset c: CallId | true

  function Messages(ps: seq<Parcel>): (r: seq<Message>)
    ensures |r| == |ps|
    ensures forall i :: 0 <= i < |ps| ==> r[i] == ps[i].message
  {
    if ps == [] then [] else [ps[0].message] + Messages(ps[1..])
  }

  /** The socket hands records over unchanged and in order: what has arrived is what the peer has
      read of the wire, with any number of empty polls in between. */
  predicate Transported(s: State, arrivals: seq<Arrival>) {
    s.read <= |s.wire| && Records(arrivals) == Messages(s.wire[..s.read])
  }

  lemma {:induction false} FittingAll(ms: seq<Message>)
    requires forall m :: m in ms ==> FitsBuffer(m)
    ensures Fitting(ms) == ms
  {
    if ms != [] {
      FittingAll(ms[1..]);
      assert ms == [ms[0]] + ms[1..];
    }
  }

  lemma BeforeEndRecords(arrivals: seq<Arrival>)
    ensures Records(BeforeEnd(arrivals)) <= Records(arrivals)
  {
  }

  /** Nothing on the wire is too large for the receive buffer. */
  lemma WireFits(es: seq<Event>, i: nat)
    requires i < |After(INITIAL, es).wire|
    ensures FitsBuffer(After(INITIAL, es).wire[i].message)
  {
    var s := After(INITIAL, es);
    Reachable(es);
    PlacedIsAccepted(s, s.wire[i]);
    assert CallShape(s, s.calls[s.wire[i].call]);
  }

  /** The handler is called with exactly a prefix of what the peer has read of the wire. */
  lemma HandledIsWirePrefix(es: seq<Event>, arrivals: seq<Arrival>)
    requires Transported(After(INITIAL, es), arrivals)
    ensures var s := After(INITIAL, es); var n := |Handled(arrivals)|;
      n <= s.read && Handled(arrivals) == Messages(s.wire[..n])
    ensures BeforeEnd(arrivals) == arrivals ==> |Handled(arrivals)| == After(INITIAL, es).read
  {
    var s := After(INITIAL, es);
    BeforeEndRecords(arrivals);
    var ms := Records(BeforeEnd(arrivals));
    forall m | m in ms
      ensures FitsBuffer(m)
    {
      var i :| 0 <= i < |ms| && ms[i] == m;
      assert Messages(s.wire[..s.read])[i] == m;
      WireFits(es, i);
    }
    FittingAll(ms);
    assert ms == Messages(s.wire[..|ms|]);
  }

  lemma OnlyPrefix(ps: seq<Parcel>, n: nat, mine: iset<CallId>)
    requires n <= |ps|
    ensures Only(ps[..n], mine) <= Only(ps, mine)
  {
    assert ps == ps[..n] + ps[n..];
    OnlyConcat(ps[..n], ps[n..], mine);
  }

  /** Of the first records on the wire, those of a sequential sender. */
  lemma PartInOrder(mine: iset<CallId>, es: seq<Event>, n: nat)
    requires Sequential(mine, INITIAL, es) && n <= |After(INITIAL, es).wire|
    ensures var s := After(INITIAL, es);
      && Messages(Only(s.wire[..n], mine)) <= Messages(Only(s.accepted, FittingCalls(s, mine)))
      && (AcceptedFits(s, mine) ==> Messages(Only(s.wire[..n], mine)) <= Messages(Only(s.accepted, mine)))
  {
    var s := After(INITIAL, es);
    SenderPrefix(mine, es);
    OnlyPrefix(s.wire, n, mine);
    if AcceptedFits(s, mine) {
      FittingSenderPrefix(mine, es);
    }
  }

  /** Whatever mix of fast path and queue was taken, and whatever other senders sent: what the
      handler has been called with is a prefix of the wire, and the part of it that came from a
      sequential sender is a prefix of what that sender was told was accepted, less its own oversized
      messages, byte for byte and descriptor for descriptor. */
  lemma HandledInOrder(mine: iset<CallId>, es: seq<Event>, arrivals: seq<Arrival>)
    requires Sequential(mine, INITIAL, es) && Transported(After(INITIAL, es), arrivals)
    ensures var s := After(INITIAL, es); var n := |Handled(arrivals)|;
      && n <= |s.wire| && Handled(arrivals) == Messages(s.wire[..n])
      && Messages(Only(s.wire[..n], mine)) <= Messages(Only(s.accepted, FittingCalls(s, mine)))
      && (AcceptedFits(s, mine) ==> Messages(Only(s.wire[..n], mine)) <= Messages(Only(s.accepted, mine)))
  {
    HandledIsWirePrefix(es, arrivals);
    PartInOrder(mine, es, |Handled(arrivals)|);
  }

  lemma {:induction false} OnlyEverything(ps: seq<Parcel>)
    ensures Only(ps, EVERYONE) == ps
  {
    if ps != [] {
      OnlyEverything(ps[1..]);
      assert ps == [ps[0]] + ps[1..];
    }
  }

  /** With one sequential sender the handler-call sequence is a prefix of the accepted messages that
      fit in one control message, and so of all of them if none was oversized. */
  lemma OneSenderEndToEnd(es: seq<Event>, arrivals: seq<Arrival>)
    requires Sequential(EVERYONE, INITIAL, es) && Transported(After(INITIAL, es), arrivals)
    ensures var s := After(INITIAL, es);
      && Handled(arrivals) <= Messages(Only(s.accepted, FittingCalls(s, EVERYONE)))
      && (AcceptedFits(s, EVERYONE) ==> Handled(arrivals) <= Messages(s.accepted))
  {
    var s := After(INITIAL, es);
    HandledInOrder(EVERYONE, es, arrivals);
    OnlyEverything(s.wire[..|Handled(arrivals)|]);
    OnlyEverything(s.accepted);
  }

  /** With one sequential sender, nothing failed and nothing in line, the wire is all that was accepted. */
  lemma WireIsAll(es: seq<Event>)
    requires Sequential(EVERYONE, INITIAL, es)
    requires var s := After(INITIAL, es); s.failed == [] && Line(s) == []
    ensures After(INITIAL, es).wire == After(INITIAL, es).accepted
  {
    var s := After(INITIAL, es);
    SenderPrefix(EVERYONE, es);
    OnlyEverything(s.wire);
    OnlyEverything(s.accepted);
    assert Only(Line(s), EVERYONE) == [];
  }

  /** And it is the whole of it once nothing has failed or is queued, everything on the wire has been
      read, and no record ended the loop. */
  lemma AllHandled(es: seq<Event>, arrivals: seq<Arrival>)
    requires Sequential(EVERYONE, INITIAL, es) && Transported(After(INITIAL, es), arrivals)
    requires var s := After(INITIAL, es); s.failed == [] && Line(s) == [] && s.read == |s.wire|
    requires BeforeEnd(arrivals) == arrivals
    ensures Handled(arrivals) == Messages(After(INITIAL, es).accepted)
  {
    var s := After(INITIAL, es);
    WireIsAll(es);
    HandledIsWirePrefix(es, arrivals);
    assert s.wire[..|s.wire|] == s.wire;
  }

  /** The node at the other end of the socket: what was delivered to it is the wire, and what its task
      has taken is what the peer has read. */
  predicate Joined(s: State, node: Nodes.Node) {
    node.delivered == Messages(s.wire) && node.taken == s.read <= |s.wire|
  }

  /** The handler calls of a node's task, however far it has got and however it ended, are a prefix of
      what its peer has read, and those from a sequential sender are a prefix of what was accepted from
      it, less its own oversized messages. */
  lemma TaskHandlesInOrder(mine: iset<CallId>, es: seq<Event>, node: Nodes.Node, handled: seq<Message>)
    requires Sequential(mine, INITIAL, es) && Joined(After(INITIAL, es), node) && NodeTrace.Served(node, handled)
    ensures var s := After(INITIAL, es); var n := |handled|;
      && n <= s.read && handled == Messages(s.wire[..n]) && (node.ending.None? ==> n == s.read)
      && Messages(Only(s.wire[..n], mine)) <= Messages(Only(s.accepted, FittingCalls(s, mine)))
  {
    var s := After(INITIAL, es);
    var n := NodeTrace.Seen(node);
    var ms := node.delivered[..n];
    forall m | m in ms
      ensures FitsBuffer(m)
    {
      var i :| 0 <= i < |ms| && ms[i] == m;
      WireFits(es, i);
    }
    FittingAll(ms);
    assert ms == Messages(s.wire[..n]);
    PartInOrder(mine, es, n);
  }

  /** And if the task ended with a hangup, the handler has been called with everything that ever reached
      the wire, from whomever, and with everything accepted from a sole sequential sender if nothing
      failed or is still in line. */
  lemma HangupHandlesEverything(es: seq<Event>, run: seq<Nodes.Event>, n: Nodes.NodeId, handled: seq<Message>)
    requires n in Nodes.After(Nodes.INITIAL, run).nodes
    requires var node := Nodes.After(Nodes.INITIAL, run).nodes[n];
      node.ending == Some(Nodes.Hangup) && Joined(After(INITIAL, es), node) && NodeTrace.Served(node, handled)
    ensures handled == Messages(After(INITIAL, es).wire)
    ensures var s := After(INITIAL, es);
      Sequential(EVERYONE, INITIAL, es) && s.failed == [] && Line(s) == [] ==> handled == Messages(s.accepted)
  {
    var s := After(INITIAL, es);
    var node := Nodes.After(Nodes.INITIAL, run).nodes[n];
    HangupReadAll(run, n);
    var ms := node.delivered[..NodeTrace.Seen(node)];
    assert ms == Messages(s.wire);
    forall m | m in ms
      ensures FitsBuffer(m)
    {
      var i :| 0 <= i < |ms| && ms[i] == m;
      WireFits(es, i);
    }
    FittingAll(ms);
    if Sequential(EVERYONE, INITIAL, es) && s.failed == [] && Line(s) == [] {
      WireIsAll(es);
    }
  }

  lemma HangupReadAll(run: seq<Nodes.Event>, n: Nodes.NodeId)
    requires n in Nodes.After(Nodes.INITIAL, run).nodes
    requires Nodes.After(Nodes.INITIAL, run).nodes[n].ending == Some(Nodes.Hangup)
    ensures var node := Nodes.After(Nodes.INITIAL, run).nodes[n]; node.taken == |node.delivered|
  {
    NodeInvariant.Always(run);
    assert NodeInvariant.NodeOk(Nodes.After(Nodes.INITIAL, run), n);
  }
}
