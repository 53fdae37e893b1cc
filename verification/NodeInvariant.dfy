/** What every interleaving of nodes, their handles and capability holders keeps. */
module NodeInvariant {
  import opened Wire
  import opened Nodes
  import Caps = Capabilities
  import CapabilityInvariant

  /** A node's identity is its socket's, and it holds everything until its task ends. */
  predicate Sound(s: State, node: Node) {
    && node.sock in s.caps.ids
    && (node.id.Some? ==> node.id.value == s.caps.ids[node.sock])
    && (node.filed ==> node.id.Some?)
    && node.taken <= |node.delivered| && (!node.polled ==> node.taken == 0)
    && (node.ending.None? ==> node.receiving && !node.dead && (node.id.Some? ==> node.filed))
  }

  /** The reason a task ended holds true, now and from then on. */
  predicate Justified(s: State, node: Node) {
    match node.ending
    case None => true
    case Some(Hangup) => node.polled && !Caps.IsOpen(s.caps, node.sock) && node.taken == |node.delivered|
    case Some(EmptyRecord) => node.polled && 0 < node.taken <= |node.delivered| && node.delivered[node.taken - 1].data == []
    case Some(Fault) => node.polled
    case Some(Panic) => node.polled && node.taken > 0
    case Some(Abort) => node.handle.Dropped?
  }

  /** What a started task lets go, it lets go in order: socket, entry, tombstone. */
  predicate InOrder(node: Node) {
    node.polled ==>
      && (node.id.Some? && !node.filed ==> !node.receiving)
      && (node.dead ==> !node.receiving && !node.filed)
  }

  predicate NodeOk(s: State, n: NodeId)
    requires n in s.nodes
  {
    Sound(s, s.nodes[n]) && Justified(s, s.nodes[n]) && InOrder(s.nodes[n])
  }

  /** Each socket has one receiving end. */
  predicate Paired(s: State) {
    forall a, b :: a in s.nodes && b in s.nodes && s.nodes[a].sock == s.nodes[b].sock ==> a == b
  }

  /** Who filed the entry under an identity. */
  predicate FiledBy(s: State, id: Caps.SocketId, n: NodeId) {
    && n in s.nodes && s.nodes[n].filed && s.nodes[n].id == Some(id)
    && id in s.locals && s.locals[id] == s.nodes[n].address
  }

  /** Every entry is some node's, which still holds it. */
  ghost predicate EntriesOwned(s: State) {
    forall id :: id in s.locals ==> exists n :: FiledBy(s, id, n)
  }

  ghost predicate Inv(s: State) {
    && Caps.Inv(s.caps)
    && (forall n :: n in s.nodes ==> NodeOk(s, n))
    && Paired(s)
    && EntriesOwned(s)
  }

  // ---- One node at a time ----

  /** What a step that moves one node makes of it. */
  function Moved(node: Node, e: Event): Node {
    match e
    case ToService(_) => node.(handle := Service)
    case DropNode(_) => node.(handle := Dropped)
    case Deliver(_, m) => node.(delivered := node.delivered + [m])
    case Poll(_) => node.(polled := true)
    case Take(_) => node.(taken := node.taken + 1)
    case End(_, reason) => Ended(node, reason)
    case CloseSocket(_) => node.(receiving := false)
    case Unfile(_) => node.(filed := false)
    case Declare(_) => node.(dead := true)
    case _ => node
  }

  lemma AppliesMoved(s: State, e: Event)
    requires Enabled(s, e) && !e.Capability? && !e.Create?
    ensures e.node in s.nodes && Apply(s, e).nodes == s.nodes[e.node := Moved(s.nodes[e.node], e)]
    ensures Apply(s, e).caps == s.caps
    ensures !e.Unfile? ==> Apply(s, e).locals == s.locals
    ensures e.Unfile? ==> Apply(s, e).locals == Unfiled(s, e.node).locals
  {
  }

  // ---- Each part, event by event ----

  lemma CapabilityStep(s: State, e: Caps.Event, n: NodeId)
    requires Inv(s) && n in s.nodes && Caps.Enabled(s.caps, e)
    ensures NodeOk(Apply(s, Capability(e)), n)
  {
    IdsKept(s.caps, e, s.nodes[n].sock);
    if !Reachable(s, n) {
      CapabilityInvariant.ShutStep(s.caps, e, s.nodes[n].sock);
    }
  }

  lemma IdsKept(c: Caps.State, e: Caps.Event, sock: Caps.Sock)
    requires sock in c.ids
    ensures sock in Caps.Step(c, e).ids && Caps.Step(c, e).ids[sock] == c.ids[sock]
  {
  }

  lemma SoundStep(s: State, e: Event, n: NodeId)
    requires n in s.nodes && Sound(s, s.nodes[n]) && Enabled(s, e) && !e.Capability? && !e.Create?
    ensures n in Apply(s, e).nodes && Sound(Apply(s, e), Apply(s, e).nodes[n])
  {
  }

  lemma JustifiedStep(s: State, e: Event, n: NodeId)
    requires n in s.nodes && NodeOk(s, n) && Enabled(s, e) && !e.Capability? && !e.Create?
    ensures n in Apply(s, e).nodes && Justified(Apply(s, e), Apply(s, e).nodes[n])
  {
  }

  lemma InOrderStep(s: State, e: Event, n: NodeId)
    requires n in s.nodes && NodeOk(s, n) && Enabled(s, e) && !e.Capability? && !e.Create?
    ensures n in Apply(s, e).nodes && InOrder(Apply(s, e).nodes[n])
  {
  }

  lemma NodeStep(s: State, e: Event, n: NodeId)
    requires n in s.nodes && NodeOk(s, n) && Enabled(s, e) && !e.Capability? && !e.Create?
    ensures n in Apply(s, e).nodes && NodeOk(Apply(s, e), n)
  {
    SoundStep(s, e, n);
    JustifiedStep(s, e, n);
    InOrderStep(s, e, n);
  }

  lemma NewNode(s: State, n: NodeId, k: Caps.InnerId, sock: Caps.Sock, address: Address)
    requires Inv(s) && Enabled(s, Create(n, k, sock, address))
    ensures NodeOk(Created(s, n, k, sock, address), n)
  {
  }

  lemma NodesStep(s: State, e: Event)
    requires Inv(s) && Enabled(s, e)
    ensures forall n :: n in Apply(s, e).nodes ==> NodeOk(Apply(s, e), n)
  {
    forall n | n in Apply(s, e).nodes
      ensures NodeOk(Apply(s, e), n)
    {
      match e {
        case Capability(event) => CapabilityStep(s, event, n);
        case Create(m, k, sock, address) =>
          if n == m {
            NewNode(s, n, k, sock, address);
          } else {
            assert NodeOk(s, n);
          }
        case _ =>
          assert NodeOk(s, n);
          NodeStep(s, e, n);
      }
    }
  }

  /** Only unfiling takes an entry away, and then only the node's own. */
  lemma OwnedAfterUnfile(s: State, n: NodeId)
    requires EntriesOwned(s) && n in s.nodes
    ensures EntriesOwned(Unfiled(s, n))
  {
    var t := Unfiled(s, n);
    forall id | id in t.locals
      ensures exists m :: FiledBy(t, id, m)
    {
      var m :| FiledBy(s, id, m);
      assert FiledBy(t, id, m);
    }
  }

  lemma OwnedAfterCreate(s: State, n: NodeId, k: Caps.InnerId, sock: Caps.Sock, address: Address)
    requires EntriesOwned(s) && Enabled(s, Create(n, k, sock, address))
    ensures EntriesOwned(Created(s, n, k, sock, address))
  {
    var t := Created(s, n, k, sock, address);
    forall id | id in t.locals
      ensures exists m :: FiledBy(t, id, m)
    {
      if s.caps.inners[k].id == Some(id) {
        assert FiledBy(t, id, n);
      } else {
        var m :| FiledBy(s, id, m);
        assert FiledBy(t, id, m);
      }
    }
  }

  /** Neither entries nor who filed them has changed. */
  lemma OwnedFrame(s: State, t: State)
    requires EntriesOwned(s) && t.locals == s.locals
    requires forall n :: n in s.nodes ==> n in t.nodes && t.nodes[n].filed == s.nodes[n].filed
                                          && t.nodes[n].id == s.nodes[n].id && t.nodes[n].address == s.nodes[n].address
    ensures EntriesOwned(t)
  {
    forall id | id in t.locals
      ensures exists m :: FiledBy(t, id, m)
    {
      var m :| FiledBy(s, id, m);
      assert FiledBy(t, id, m);
    }
  }

  lemma EntriesStep(s: State, e: Event)
    requires EntriesOwned(s) && Enabled(s, e)
    ensures EntriesOwned(Apply(s, e))
  {
    match e {
      case Unfile(n) => OwnedAfterUnfile(s, n);
      case Create(n, k, sock, address) => OwnedAfterCreate(s, n, k, sock, address);
      case _ => OwnedFrame(s, Apply(s, e));
    }
  }

  lemma PairedStep(s: State, e: Event)
    requires Paired(s) && Enabled(s, e)
    ensures Paired(Apply(s, e))
  {
  }

  lemma InvStep(s: State, e: Event)
    requires Inv(s)
    ensures Inv(Step(s, e))
  {
    if Enabled(s, e) {
      if e.Capability? {
        CapabilityInvariant.InvStep(s.caps, e.event);
      }
      NodesStep(s, e);
      PairedStep(s, e);
      EntriesStep(s, e);
    }
  }

  lemma {:induction false} InvAfter(s: State, es: seq<Event>)
    requires Inv(s)
    ensures Inv(After(s, es))
    decreases |es|
  {
    if es != [] {
      InvStep(s, es[0]);
      InvAfter(Step(s, es[0]), es[1..]);
    }
  }

  lemma Always(es: seq<Event>)
    ensures Inv(After(INITIAL, es))
  {
    InvAfter(INITIAL, es);
  }
}
