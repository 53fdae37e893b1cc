/** Nodes: the receiving end of a socket, the task that serves it, and the registry of local handlers.

    A node's task owns the receiving socket, the `LocalEntry` that files its handler, and the
    tombstone that declares its death; how the task ends decides in which order it lets them go. The
    capabilities that keep a node reachable are those of `Capabilities`, whose events are
    interleaved with the nodes' own. */
module Nodes {
  import opened Wire
  import Caps = Capabilities

  type NodeId = nat
  type Address = nat    // of the handler's allocation, as `LocalEntry` remembers it

  /** The `Node` handle: kept, given up with `to_service`, or dropped with its abort armed. */
  datatype Handle = Kept | Service | Dropped

  /** What a task holds, in the order the async block declares it: the tombstone, the entry, and the
      receive loop's socket. */
  datatype Guard = Tombstone | Entry | Socket

  datatype Reason = Hangup | EmptyRecord | Fault | Panic | Abort

  /** `taken` of the `delivered` records have been read. `ending` says why the task is over, if it
      is; the socket, the entry and the tombstone are let go one by one after that. */
  datatype Node = Node(
    sock: Caps.Sock,
    id: Option<Caps.SocketId>,
    address: Address,
    handle: Handle,
    polled: bool,
    delivered: seq<Message>,
    taken: nat,
    ending: Option<Reason>,
    receiving: bool,
    filed: bool,
    dead: bool)

  datatype State = State(caps: Caps.State, nodes: map<NodeId, Node>, locals: map<Caps.SocketId, Address>)

  const INITIAL := State(Caps.INITIAL, map[], map[])

  datatype Event =
    | Capability(event: Caps.Event)
    | Create(node: NodeId, inner: Caps.InnerId, sock: Caps.Sock, address: Address)
    | ToService(node: NodeId)
    | DropNode(node: NodeId)
    | Deliver(node: NodeId, message: Message)
    | Poll(node: NodeId)
    | Take(node: NodeId)
    | End(node: NodeId, reason: Reason)
    | CloseSocket(node: NodeId)
    | Unfile(node: NodeId)
    | Declare(node: NodeId)

  /** Somebody could still send to the node. */
  predicate Reachable(s: State, n: NodeId)
    requires n in s.nodes
  {
    Caps.IsOpen(s.caps, s.nodes[n].sock)
  }

  predicate Running(node: Node) {
    node.polled && node.ending.None?
  }

  /** Is there a record to read, and is it one the handler gets to see? */
  predicate HasRecord(node: Node) {
    node.taken < |node.delivered|
  }

  predicate NextIsEmpty(node: Node) {
    HasRecord(node) && node.delivered[node.taken].data == []
  }

  /** When the task can end for this reason. A hangup is read only once every record has been; a
      handler can only panic over a record it was given; an abort needs the handle dropped, and is
      the one thing that can end a task nobody has polled. */
  predicate CanEnd(s: State, n: NodeId, reason: Reason)
    requires n in s.nodes
  {
    var node := s.nodes[n];
    match reason
    case Hangup => node.polled && !HasRecord(node) && !Reachable(s, n)
    case EmptyRecord => node.polled && NextIsEmpty(node)
    case Fault => node.polled
    case Panic => node.polled && node.taken > 0
    case Abort => node.handle.Dropped?
  }

  predicate Enabled(s: State, e: Event) {
    match e
    case Capability(event) => Caps.Enabled(s.caps, event)
    case Create(n, k, sock, _) =>
      && n !in s.nodes && (forall m :: m in s.nodes ==> s.nodes[m].sock != sock)
      && Caps.SendsOn(s.caps, k, sock) && s.caps.inners[k].phase.Live?
    case ToService(n) => n in s.nodes && s.nodes[n].handle.Kept?
    case DropNode(n) => n in s.nodes && s.nodes[n].handle.Kept?
    case Deliver(n, _) => n in s.nodes && s.nodes[n].receiving && Reachable(s, n)
    case Poll(n) => n in s.nodes && !s.nodes[n].polled && s.nodes[n].ending.None?
    case Take(n) => n in s.nodes && Running(s.nodes[n]) && HasRecord(s.nodes[n]) && !NextIsEmpty(s.nodes[n])
    case End(n, reason) => n in s.nodes && s.nodes[n].ending.None? && CanEnd(s, n, reason)
    case CloseSocket(n) => n in s.nodes && MayDrop(s.nodes[n], Socket)
    case Unfile(n) => n in s.nodes && MayDrop(s.nodes[n], Entry)
    case Declare(n) => n in s.nodes && MayDrop(s.nodes[n], Tombstone)
  }

  /** What the task still holds, in declaration order. */
  function Frame(node: Node): seq<Guard> {
    (if node.dead then [] else [Tombstone]) + (if node.filed then [Entry] else [])
    + (if node.receiving then [Socket] else [])
  }

  /** A task that is over drops what it holds. One that has been polled has its captures in a frame of
      local variables, and drops the last declared first; one aborted before its first poll drops them
      in whatever order it captured them. */
  predicate MayDrop(node: Node, guard: Guard) {
    var frame := Frame(node);
    node.ending.Some? && guard in frame && (node.polled ==> guard == frame[|frame| - 1])
  }

  /** So a started task lets its socket go first, then its entry, then its tombstone. */
  lemma DropOrder(node: Node)
    ensures MayDrop(node, Socket) <==> node.ending.Some? && node.receiving
    ensures MayDrop(node, Entry) <==> node.ending.Some? && node.filed && (node.polled ==> !node.receiving)
    ensures MayDrop(node, Tombstone) <==>
            node.ending.Some? && !node.dead && (node.polled ==> !node.receiving && !node.filed)
  {
  }

  function Put(s: State, n: NodeId, node: Node): State {
    s.(nodes := s.nodes[n := node])
  }

  /** `new_raw` once the `Ref` exists: files the handler under the `Ref`'s identity, if it has one,
      with a plain insert, and spawns the task. */
  function Created(s: State, n: NodeId, k: Caps.InnerId, sock: Caps.Sock, address: Address): State
    requires k in s.caps.inners
  {
    var id := s.caps.inners[k].id;
    Put(s, n, Node(sock, id, address, Kept, false, [], 0, None, true, id.Some?, false))
    .(locals := if id.Some? then s.locals[id.value := address] else s.locals)
  }

  /** `LocalEntry::drop`: removes the entry under the identity if it is the one filed here. */
  function Unfiled(s: State, n: NodeId): State
    requires n in s.nodes
  {
    var node := s.nodes[n];
    Put(s, n, node.(filed := false))
    .(locals := if node.id.Some? && node.id.value in s.locals && s.locals[node.id.value] == node.address
                then s.locals - {node.id.value} else s.locals)
  }

  function Ended(node: Node, reason: Reason): Node {
    node.(ending := Some(reason), taken := if reason.EmptyRecord? then node.taken + 1 else node.taken)
  }

  function Apply(s: State, e: Event): State
    requires Enabled(s, e)
  {
    match e
    case Capability(event) => s.(caps := Caps.Apply(s.caps, event))
    case Create(n, k, sock, address) => Created(s, n, k, sock, address)
    case ToService(n) => Put(s, n, s.nodes[n].(handle := Service))
    case DropNode(n) => Put(s, n, s.nodes[n].(handle := Dropped))
    case Deliver(n, m) => Put(s, n, s.nodes[n].(delivered := s.nodes[n].delivered + [m]))
    case Poll(n) => Put(s, n, s.nodes[n].(polled := true))
    case Take(n) => Put(s, n, s.nodes[n].(taken := s.nodes[n].taken + 1))
    case End(n, reason) => Put(s, n, Ended(s.nodes[n], reason))
    case CloseSocket(n) => Put(s, n, s.nodes[n].(receiving := false))
    case Unfile(n) => Unfiled(s, n)
    case Declare(n) => Put(s, n, s.nodes[n].(dead := true))
  }

  function Step(s: State, e: Event): State {
    if Enabled(s, e) then Apply(s, e) else s
  }

  function After(s: State, es: seq<Event>): State
    decreases |es|
  {
    if es == [] then s else After(Step(s, es[0]), es[1..])
  }

  lemma {:induction false} AfterConcat(s: State, a: seq<Event>, b: seq<Event>)
    ensures After(s, a + b) == After(After(s, a), b)
    decreases |a|
  {
    if a == [] {
      assert a + b == b;
    } else {
      assert (a + b)[1..] == a[1..] + b;
      AfterConcat(Step(s, a[0]), a[1..], b);
    }
  }

  lemma AfterSnoc(s: State, a: seq<Event>, e: Event)
    ensures After(s, a + [e]) == Step(After(s, a), e)
  {
    AfterConcat(s, a, [e]);
    assert [e][1..] == [];
    assert After(After(s, a), [e]) == After(Step(After(s, a), e), []);
  }

  lemma ThreeSteps(s: State, a: Event, b: Event, c: Event)
    ensures After(s, [a, b, c]) == Step(Step(Step(s, a), b), c)
  {
    AfterSnoc(s, [a, b], c);
    AfterSnoc(s, [a], b);
    AfterSnoc(s, [], a);
    assert [a, b] + [c] == [a, b, c] && [a] + [b] == [a, b] && [] + [a] == [a];
  }

  /** What the kernel tells whoever asks whether a `Ref` for the node's socket is dead. */
  predicate HungUp(node: Node) {
    !node.receiving
  }

  /** Does anything keep the handler allocated: the node's handle, the task, or somebody outside? */
  predicate HandlerAlive(s: State, address: Address, outside: set<Address>) {
    address in outside
    || exists n :: n in s.nodes && s.nodes[n].address == address && (s.nodes[n].handle.Kept? || s.nodes[n].receiving)
  }

  /** `local_handler`: the handler filed under an identity, if it is still there. */
  function LocalHandler(s: State, id: Caps.SocketId, outside: set<Address>): Option<Address> {
    if id in s.locals && HandlerAlive(s, s.locals[id], outside) then Some(s.locals[id]) else None
  }
}
