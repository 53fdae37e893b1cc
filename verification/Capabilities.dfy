/** Capabilities and the registry that interns them.

    Sockets are open file descriptions, named by descriptors; the kernel counts the descriptors of
    each and identifies an open one by an inode it may reissue once the last is closed. A `Ref` is a
    strong reference to a `RefInner`, which owns one descriptor; `REFS` maps identities to
    `RefInner`s weakly. One event is one atomic action of one holder, and any number of holders are
    interleaved. */
module Capabilities {
  import opened Wire

  type Fd = nat
  type Sock = nat
  type SocketId = nat
  type InnerId = nat

  /** Who a descriptor belongs to. */
  datatype Role =
    | Loose                   // an `OwnedFd`: received, attached to a message, or about to be closed
    | InFlight                // riding on a record in some socket
    | DrainDup                // an outbox's duplicate
    | WatchDup                // a death watch's duplicate
    | Owned(inner: InnerId)   // a `RefInner`'s own

  datatype Desc = Desc(sock: Sock, role: Role)

  /** A `RefInner`: alive while it has strong references, then unfiled, then closed. */
  datatype Phase = Live | Unfiling | Closing | Gone

  datatype Inner = Inner(fd: Fd, id: Option<SocketId>, strong: nat, phase: Phase)

  /** `open` is the kernel's count of the descriptors of each socket; `ids` names every socket that
      was ever opened. */
  datatype State = State(
    fds: map<Fd, Desc>,
    open: map<Sock, nat>,
    ids: map<Sock, SocketId>,
    inners: map<InnerId, Inner>,
    refs: map<SocketId, InnerId>)

  const INITIAL := State(map[], map[], map[], map[], map[])

  datatype Event =
    | OpenSocket(fd: Fd, sock: Sock, id: SocketId)
    | Dup(fd: Fd, copy: Fd, role: Role)
    | Receive(fd: Fd)
    | Close(fd: Fd)
    | Intern(fd: Fd, inner: InnerId)
    | InternUnfiled(fd: Fd, inner: InnerId)
    | CloneRef(inner: InnerId)
    | DropRef(inner: InnerId)
    | Unfile(inner: InnerId)
    | CloseInner(inner: InnerId)

  predicate IsOpen(s: State, sock: Sock) {
    sock in s.open && s.open[sock] > 0
  }

  /** The kernel's promise about identities: no open socket has this one. */
  predicate IdFree(s: State, id: SocketId) {
    forall other :: other in s.ids && IsOpen(s, other) ==> s.ids[other] != id
  }

  predicate LooseAt(s: State, fd: Fd) {
    fd in s.fds && s.fds[fd].role.Loose? && s.fds[fd].sock in s.ids && s.fds[fd].sock in s.open
  }

  predicate Alive(s: State, k: InnerId) {
    k in s.inners && s.inners[k].strong > 0
  }

  predicate Enabled(s: State, e: Event) {
    match e
    case OpenSocket(fd, sock, id) => fd !in s.fds && sock !in s.ids && IdFree(s, id)
    case Dup(fd, copy, role) => fd in s.fds && s.fds[fd].sock in s.open && copy !in s.fds && !role.Owned?
    case Receive(fd) => fd in s.fds && s.fds[fd].role.InFlight?
    case Close(fd) => fd in s.fds && !s.fds[fd].role.Owned? && IsOpen(s, s.fds[fd].sock)
    case Intern(fd, k) => LooseAt(s, fd) && k !in s.inners
    case InternUnfiled(fd, k) => LooseAt(s, fd) && k !in s.inners
    case CloneRef(k) => Alive(s, k)
    case DropRef(k) => Alive(s, k)
    case Unfile(k) => k in s.inners && s.inners[k].phase.Unfiling? && s.inners[k].id.Some?
    case CloseInner(k) =>
      && k in s.inners && s.inners[k].phase.Closing?
      && s.inners[k].fd in s.fds && IsOpen(s, s.fds[s.inners[k].fd].sock)
  }

  /** One descriptor fewer; the socket closes with the last. */
  function Closed(s: State, fd: Fd): State
    requires fd in s.fds && IsOpen(s, s.fds[fd].sock)
  {
    var sock := s.fds[fd].sock;
    s.(fds := s.fds - {fd}, open := s.open[sock := s.open[sock] - 1])
  }

  function PutInner(s: State, k: InnerId, inner: Inner): State {
    s.(inners := s.inners[k := inner])
  }

  /** A new `RefInner` takes the descriptor over. */
  function Adopt(s: State, fd: Fd, k: InnerId, id: Option<SocketId>): State
    requires fd in s.fds
  {
    PutInner(s, k, Inner(fd, id, 1, Live)).(fds := s.fds[fd := s.fds[fd].(role := Owned(k))])
  }

  /** The `RefInner` an arrival would be recognised as: filed under its identity, and alive. */
  function Recognised(s: State, id: SocketId): Option<InnerId> {
    if id in s.refs && Alive(s, s.refs[id]) then Some(s.refs[id]) else None
  }

  /** `from_fd` under the shard lock: a hit shares the `RefInner` and leaves the descriptor to be
      closed; a miss, or an entry whose holder is dying, is filed afresh. */
  function Interned(s: State, fd: Fd, k: InnerId): State
    requires LooseAt(s, fd)
  {
    var id := s.ids[s.fds[fd].sock];
    var hit := Recognised(s, id);
    if hit.Some?
    then PutInner(s, hit.value, s.inners[hit.value].(strong := s.inners[hit.value].strong + 1))
    else Adopt(s, fd, k, Some(id)).(refs := s.refs[id := k])
  }

  /** `drop` of one strong reference; the last one starts the `RefInner`'s own `drop`. */
  function Dropped(s: State, k: InnerId): State
    requires Alive(s, k)
  {
    var r := s.inners[k];
    PutInner(s, k, if r.strong > 1 then r.(strong := r.strong - 1)
                   else r.(strong := 0, phase := if r.id.Some? then Unfiling else Closing))
  }

  /** `RefInner::drop`: removes the entry under its identity if that entry is dead. */
  function Unfiled(s: State, k: InnerId): State
    requires k in s.inners && s.inners[k].id.Some?
  {
    var id := s.inners[k].id.value;
    PutInner(s, k, s.inners[k].(phase := Closing))
    .(refs := if id in s.refs && !Alive(s, s.refs[id]) then s.refs - {id} else s.refs)
  }

  function Apply(s: State, e: Event): State
    requires Enabled(s, e)
  {
    match e
    case OpenSocket(fd, sock, id) =>
      s.(fds := s.fds[fd := Desc(sock, Loose)], open := s.open[sock := 1], ids := s.ids[sock := id])
    case Dup(fd, copy, role) =>
      var sock := s.fds[fd].sock;
      s.(fds := s.fds[copy := Desc(sock, role)], open := s.open[sock := s.open[sock] + 1])
    case Receive(fd) => s.(fds := s.fds[fd := s.fds[fd].(role := Loose)])
    case Close(fd) => Closed(s, fd)
    case Intern(fd, k) => Interned(s, fd, k)
    case InternUnfiled(fd, k) => Adopt(s, fd, k, None)
    case CloneRef(k) => PutInner(s, k, s.inners[k].(strong := s.inners[k].strong + 1))
    case DropRef(k) => Dropped(s, k)
    case Unfile(k) => Unfiled(s, k)
    case CloseInner(k) => PutInner(Closed(s, s.inners[k].fd), k, s.inners[k].(phase := Gone))
  }

  function Step(s: State, e: Event): State {
    if Enabled(s, e) then Apply(s, e) else s
  }

  function After(s: State, es: seq<Event>): State
    decreases |es|
  {
    if es == [] then s else After(Step(s, es[0]), es[1..])
  }

  lemma {:induction false} AfterConcat(s: State, a: seq<Event>, b: seq<Event>)
    ensures After(s, a + b) == After(After(s, a), b)
    decreases |a|
  {
    if a == [] {
      assert a + b == b;
    } else {
      assert (a + b)[1..] == a[1..] + b;
      AfterConcat(Step(s, a[0]), a[1..], b);
    }
  }

  lemma AfterSnoc(s: State, a: seq<Event>, e: Event)
    ensures After(s, a + [e]) == Step(After(s, a), e)
  {
    AfterConcat(s, a, [e]);
    assert [e][1..] == [];
    assert After(After(s, a), [e]) == After(Step(After(s, a), e), []);
  }

  // ---- Invariants ----

  function Naming(s: State, sock: Sock): set<Fd> {
    set fd | fd in s.fds && s.fds[fd].sock == sock
  }

  /** The kernel's counts are right, and open sockets have distinct identities. */
  predicate Counted(s: State) {
    && s.open.Keys == s.ids.Keys
    && (forall fd :: fd in s.fds ==> s.fds[fd].sock in s.ids)
    && (forall sock :: sock in s.ids ==> s.open[sock] == |Naming(s, sock)|)
  }

  predicate Identified(s: State) {
    forall a, b :: a in s.ids && b in s.ids && IsOpen(s, a) && IsOpen(s, b) && s.ids[a] == s.ids[b] ==> a == b
  }

  /** A `RefInner` owns its descriptor until it closes it, and knows its socket's identity. */
  predicate Owns(s: State, k: InnerId)
    requires k in s.inners
  {
    var r := s.inners[k];
    && (!r.phase.Gone? ==> r.fd in s.fds && s.fds[r.fd].role == Owned(k))
    && (r.strong > 0 <==> r.phase.Live?)
    && (r.phase.Unfiling? ==> r.id.Some?)
    && (!r.phase.Gone? && r.id.Some? && r.fd in s.fds ==>
          s.fds[r.fd].sock in s.ids && r.id.value == s.ids[s.fds[r.fd].sock])
  }

  predicate Ownership(s: State) {
    && (forall k :: k in s.inners ==> Owns(s, k))
    && (forall fd :: fd in s.fds && s.fds[fd].role.Owned? ==>
          var k := s.fds[fd].role.inner; k in s.inners && s.inners[k].fd == fd && !s.inners[k].phase.Gone?)
  }

  /** Every entry names a `RefInner` that is alive or has yet to unfile itself; every live filed
      `RefInner` is its identity's entry. */
  predicate Filed(s: State) {
    && (forall id :: id in s.refs ==>
          s.refs[id] in s.inners && s.inners[s.refs[id]].id == Some(id)
          && (s.inners[s.refs[id]].phase.Live? || s.inners[s.refs[id]].phase.Unfiling?))
    && (forall k :: k in s.inners && s.inners[k].phase.Live? && s.inners[k].id.Some? ==>
          s.inners[k].id.value in s.refs && s.refs[s.inners[k].id.value] == k)
  }

  predicate Kernel(s: State) {
    Counted(s) && Identified(s)
  }

  predicate Registry(s: State) {
    Ownership(s) && Filed(s)
  }

  predicate Inv(s: State) {
    Kernel(s) && Registry(s)
  }

  /** The socket a `RefInner` sends on, while it has one. */
  predicate SendsOn(s: State, k: InnerId, sock: Sock) {
    k in s.inners && s.inners[k].fd in s.fds && s.fds[s.inners[k].fd] == Desc(sock, Owned(k))
  }
}
