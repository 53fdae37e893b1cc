/** What every interleaving of capability holders keeps, and what it means: live capabilities are
    canonical, no registry entry is stale, and a socket is open exactly while somebody holds it. */
module CapabilityInvariant {
  import opened Wire
  import opened Capabilities

  // ---- The kernel's counts ----

  lemma NamingAdded(s: State, t: State, fd: Fd, x: Sock)
    requires fd !in s.fds && fd in t.fds && t.fds == s.fds[fd := t.fds[fd]]
    ensures |Naming(t, x)| == |Naming(s, x)| + (if x == t.fds[fd].sock then 1 else 0)
  {
    if x == t.fds[fd].sock {
      assert Naming(t, x) == Naming(s, x) + {fd};
    } else {
      assert Naming(t, x) == Naming(s, x);
    }
  }

  lemma NamingClosed(s: State, fd: Fd, x: Sock)
    requires fd in s.fds && IsOpen(s, s.fds[fd].sock)
    ensures |Naming(Closed(s, fd), x)| == |Naming(s, x)| - (if x == s.fds[fd].sock then 1 else 0)
  {
    if x == s.fds[fd].sock {
      assert Naming(s, x) == Naming(Closed(s, fd), x) + {fd};
    } else {
      assert Naming(s, x) == Naming(Closed(s, fd), x);
    }
  }

  lemma KernelOpen(s: State, fd: Fd, sock: Sock, id: SocketId)
    requires Kernel(s) && Enabled(s, OpenSocket(fd, sock, id))
    ensures Kernel(Apply(s, OpenSocket(fd, sock, id)))
  {
    var t := Apply(s, OpenSocket(fd, sock, id));
    assert Naming(s, sock) == {};
    forall x | x in t.ids
      ensures t.open[x] == |Naming(t, x)|
    {
      NamingAdded(s, t, fd, x);
    }
  }

  lemma KernelDup(s: State, fd: Fd, copy: Fd, role: Role)
    requires Kernel(s) && Enabled(s, Dup(fd, copy, role))
    ensures Kernel(Apply(s, Dup(fd, copy, role)))
  {
    var t := Apply(s, Dup(fd, copy, role));
    NamedIsOpen(s, fd);
    forall x | x in t.ids
      ensures t.open[x] == |Naming(t, x)|
    {
      NamingAdded(s, t, copy, x);
    }
  }

  lemma KernelClosed(s: State, fd: Fd)
    requires Kernel(s) && fd in s.fds && IsOpen(s, s.fds[fd].sock)
    ensures Kernel(Closed(s, fd))
  {
    CountedClosed(s, fd);
    IdentifiedClosed(s, fd);
  }

  lemma CountedClosed(s: State, fd: Fd)
    requires Counted(s) && fd in s.fds && IsOpen(s, s.fds[fd].sock)
    ensures Counted(Closed(s, fd))
  {
    var t := Closed(s, fd);
    forall x | x in t.ids
      ensures t.open[x] == |Naming(t, x)|
    {
      NamingClosed(s, fd, x);
    }
  }

  lemma IdentifiedClosed(s: State, fd: Fd)
    requires Identified(s) && fd in s.fds && IsOpen(s, s.fds[fd].sock)
    ensures Identified(Closed(s, fd))
  {
  }

  /** Handing a descriptor over changes no count. */
  lemma KernelHanded(s: State, t: State)
    requires Kernel(s) && t.ids == s.ids && t.open == s.open && t.fds.Keys == s.fds.Keys
    requires forall fd :: fd in s.fds ==> t.fds[fd].sock == s.fds[fd].sock
    ensures Kernel(t)
  {
    forall x | x in t.ids
      ensures t.open[x] == |Naming(t, x)|
    {
      assert Naming(t, x) == Naming(s, x);
    }
  }

  lemma KernelCloseInner(s: State, k: InnerId)
    requires Kernel(s) && Enabled(s, CloseInner(k))
    ensures Kernel(Apply(s, CloseInner(k)))
  {
    KernelClosed(s, s.inners[k].fd);
    KernelHanded(Closed(s, s.inners[k].fd), Apply(s, CloseInner(k)));
  }

  lemma KernelStep(s: State, e: Event)
    requires Kernel(s)
    ensures Kernel(Step(s, e))
  {
    if Enabled(s, e) {
      var t := Apply(s, e);
      match e {
        case OpenSocket(fd, sock, id) => KernelOpen(s, fd, sock, id);
        case Dup(fd, copy, role) => KernelDup(s, fd, copy, role);
        case Close(fd) => KernelClosed(s, fd);
        case CloseInner(k) => KernelCloseInner(s, k);
        case _ =>
          HandsOver(s, e);
          KernelHanded(s, t);
      }
    }
  }

  /** The other events open and close nothing. */
  lemma HandsOver(s: State, e: Event)
    requires Enabled(s, e) && !e.OpenSocket? && !e.Dup? && !e.Close? && !e.CloseInner?
    ensures var t := Apply(s, e); t.ids == s.ids && t.open == s.open && t.fds.Keys == s.fds.Keys
    ensures forall fd :: fd in s.fds ==> Apply(s, e).fds[fd].sock == s.fds[fd].sock
  {
  }

  /** A socket a descriptor names is open. */
  lemma NamedIsOpen(s: State, fd: Fd)
    requires Counted(s) && fd in s.fds
    ensures IsOpen(s, s.fds[fd].sock)
  {
    assert fd in Naming(s, s.fds[fd].sock);
  }

  /** A hit in the registry is a `RefInner` for the very socket that arrived. */
  lemma HitSendsThere(s: State, fd: Fd)
    requires Inv(s) && LooseAt(s, fd) && Recognised(s, s.ids[s.fds[fd].sock]).Some?
    ensures SendsOn(s, Recognised(s, s.ids[s.fds[fd].sock]).value, s.fds[fd].sock)
  {
    var k := Recognised(s, s.ids[s.fds[fd].sock]).value;
    assert Owns(s, k);
    NamedIsOpen(s, fd);
    NamedIsOpen(s, s.inners[k].fd);
  }

  // ---- The registry ----

  /** Nothing of what `RefInner`s own or are filed under has changed. */
  predicate SameOwners(s: State, t: State) {
    && t.inners == s.inners && t.refs == s.refs
    && (forall fd :: fd in s.fds && s.fds[fd].role.Owned? ==> fd in t.fds && t.fds[fd] == s.fds[fd])
    && (forall fd :: fd in t.fds && t.fds[fd].role.Owned? ==> fd in s.fds && s.fds[fd] == t.fds[fd])
    && (forall sock :: sock in s.ids ==> sock in t.ids && t.ids[sock] == s.ids[sock])
  }

  lemma RegistryFrame(s: State, t: State)
    requires Registry(s) && SameOwners(s, t)
    ensures Registry(t)
  {
  }

  /** Strong references of a live `RefInner` come and go without moving anything else. */
  lemma RegistryStrong(s: State, k: InnerId, strong: nat)
    requires Registry(s) && Alive(s, k) && strong > 0
    ensures Registry(PutInner(s, k, s.inners[k].(strong := strong)))
  {
  }

  lemma OwnershipAdopt(s: State, fd: Fd, k: InnerId, id: Option<SocketId>)
    requires Ownership(s) && LooseAt(s, fd) && k !in s.inners
    requires id.Some? ==> id.value == s.ids[s.fds[fd].sock]
    ensures Ownership(Adopt(s, fd, k, id))
  {
  }

  /** Filing under an identity that nobody alive is filed under displaces nobody alive. */
  lemma FiledAdopt(s: State, fd: Fd, k: InnerId)
    requires Registry(s) && LooseAt(s, fd) && k !in s.inners && Recognised(s, s.ids[s.fds[fd].sock]).None?
    ensures Filed(Interned(s, fd, k))
  {
  }

  lemma RegistryMiss(s: State, fd: Fd, k: InnerId)
    requires Registry(s) && LooseAt(s, fd) && k !in s.inners && Recognised(s, s.ids[s.fds[fd].sock]).None?
    ensures Registry(Interned(s, fd, k))
  {
    var id := s.ids[s.fds[fd].sock];
    FiledAdopt(s, fd, k);
    OwnershipAdopt(s, fd, k, Some(id));
    OwnershipIgnoresRefs(Adopt(s, fd, k, Some(id)), Interned(s, fd, k));
  }

  lemma OwnershipIgnoresRefs(s: State, t: State)
    requires Ownership(s) && t == s.(refs := t.refs)
    ensures Ownership(t)
  {
  }

  lemma RegistryUnfiledIntern(s: State, fd: Fd, k: InnerId)
    requires Registry(s) && LooseAt(s, fd) && k !in s.inners
    ensures Registry(Adopt(s, fd, k, None))
  {
  }

  lemma RegistryDrop(s: State, k: InnerId)
    requires Registry(s) && Alive(s, k)
    ensures Registry(Dropped(s, k))
  {
  }

  lemma RegistryUnfile(s: State, k: InnerId)
    requires Registry(s) && Enabled(s, Unfile(k))
    ensures Registry(Unfiled(s, k))
  {
    var t := Unfiled(s, k);
    assert Owns(s, k) && !Alive(s, k);
    forall j | j in t.inners
      ensures Owns(t, j)
    {
      assert Owns(s, j);
    }
    forall j | j in t.inners && t.inners[j].phase.Live? && t.inners[j].id.Some?
      ensures t.inners[j].id.value in t.refs && t.refs[t.inners[j].id.value] == j
    {
      assert Owns(s, j) && Alive(s, j);
    }
  }

  lemma RegistryCloseInner(s: State, k: InnerId)
    requires Registry(s) && Enabled(s, CloseInner(k))
    ensures Registry(Apply(s, CloseInner(k)))
  {
  }

  lemma RegistryIntern(s: State, fd: Fd, k: InnerId)
    requires Registry(s) && Enabled(s, Intern(fd, k))
    ensures Registry(Interned(s, fd, k))
  {
    var hit := Recognised(s, s.ids[s.fds[fd].sock]);
    if hit.Some? {
      RegistryStrong(s, hit.value, s.inners[hit.value].strong + 1);
    } else {
      RegistryMiss(s, fd, k);
    }
  }

  lemma RegistryStep(s: State, e: Event)
    requires Registry(s)
    ensures Registry(Step(s, e))
  {
    if Enabled(s, e) {
      match e {
        case Intern(fd, k) => RegistryIntern(s, fd, k);
        case InternUnfiled(fd, k) => RegistryUnfiledIntern(s, fd, k);
        case CloneRef(k) => RegistryStrong(s, k, s.inners[k].strong + 1);
        case DropRef(k) => RegistryDrop(s, k);
        case Unfile(k) => RegistryUnfile(s, k);
        case CloseInner(k) => RegistryCloseInner(s, k);
        case _ => RegistryFrame(s, Apply(s, e));
      }
    }
  }

  lemma InvStep(s: State, e: Event)
    requires Inv(s)
    ensures Inv(Step(s, e))
  {
    KernelStep(s, e);
    RegistryStep(s, e);
  }

  lemma {:induction false} InvAfter(s: State, es: seq<Event>)
    requires Inv(s)
    ensures Inv(After(s, es))
    decreases |es|
  {
    if es != [] {
      InvStep(s, es[0]);
      InvAfter(Step(s, es[0]), es[1..]);
    }
  }

  lemma Reachable(es: seq<Event>)
    ensures Inv(After(INITIAL, es))
  {
    InvAfter(INITIAL, es);
  }

  // ---- What it means ----

  /** A live capability: a strong reference to a `RefInner` that made it into the registry. */
  predicate LiveFiled(s: State, k: InnerId) {
    k in s.inners && s.inners[k].phase.Live? && s.inners[k].id.Some?
  }

  /** In every reachable state two live filed capabilities share a `RefInner` exactly when they send
      on the same socket. */
  lemma Canonical(es: seq<Event>, k1: InnerId, k2: InnerId, sock1: Sock, sock2: Sock)
    requires LiveFiled(After(INITIAL, es), k1) && LiveFiled(After(INITIAL, es), k2)
    requires SendsOn(After(INITIAL, es), k1, sock1) && SendsOn(After(INITIAL, es), k2, sock2)
    ensures k1 == k2 <==> sock1 == sock2
  {
    var s := After(INITIAL, es);
    Reachable(es);
    assert Owns(s, k1) && Owns(s, k2);
  }

  predicate Reaches(s: State, k: InnerId, sock: Sock) {
    SendsOn(s, k, sock) && IsOpen(s, sock)
  }

  /** Whoever is alive has an open socket to send on. */
  lemma LiveSendsOnOpenSocket(es: seq<Event>, k: InnerId)
    requires Alive(After(INITIAL, es), k)
    ensures exists sock :: Reaches(After(INITIAL, es), k, sock)
  {
    var s := After(INITIAL, es);
    Reachable(es);
    assert Owns(s, k);
    NamedIsOpen(s, s.inners[k].fd);
    assert Reaches(s, k, s.fds[s.inners[k].fd].sock);
  }

  /** No entry is stale: each names a `RefInner` that is alive or has yet to unfile itself, and
      whose socket is still open under that identity. So an identity the kernel could reissue is
      never in the registry. */
  lemma NoStaleEntry(es: seq<Event>, id: SocketId)
    requires id in After(INITIAL, es).refs
    ensures var s := After(INITIAL, es); var k := s.refs[id];
      && k in s.inners && (s.inners[k].phase.Live? || s.inners[k].phase.Unfiling?)
      && !IdFree(s, id)
      && (exists sock :: Reaches(s, k, sock) && sock in s.ids && s.ids[sock] == id)
  {
    var s := After(INITIAL, es);
    Reachable(es);
    var k := s.refs[id];
    assert Owns(s, k);
    var sock := s.fds[s.inners[k].fd].sock;
    NamedIsOpen(s, s.inners[k].fd);
    assert Reaches(s, k, sock);
  }

  /** A filed `RefInner` keeps its identity. */
  lemma IdKept(s: State, e: Event, k: InnerId)
    requires k in s.inners
    ensures k in Step(s, e).inners && Step(s, e).inners[k].id == s.inners[k].id
  {
  }

  /** No step takes a live capability's entry away. */
  lemma LiveStaysFiled(es: seq<Event>, e: Event, k: InnerId)
    requires LiveFiled(After(INITIAL, es), k) && LiveFiled(Step(After(INITIAL, es), e), k)
    ensures var s := After(INITIAL, es); var id := s.inners[k].id.value; var t := Step(s, e);
      && id in s.refs && s.refs[id] == k && id in t.refs && t.refs[id] == k
  {
    var s := After(INITIAL, es);
    Reachable(es);
    RegistryStep(s, e);
    IdKept(s, e, k);
  }

  /** Recognition is right, and closing the redundant descriptor cannot close the socket: the `Ref`
      handed back is alive and sends on the socket that arrived. */
  lemma InternIsFaithful(es: seq<Event>, fd: Fd, k: InnerId)
    requires Enabled(After(INITIAL, es), Intern(fd, k))
    ensures var s := After(INITIAL, es); var sock := s.fds[fd].sock; var t := Step(s, Intern(fd, k));
      && s.ids[sock] in t.refs
      && LiveFiled(t, t.refs[s.ids[sock]]) && SendsOn(t, t.refs[s.ids[sock]], sock)
      && (Recognised(s, s.ids[sock]).Some? ==>
            t.refs == s.refs && Enabled(t, Close(fd)) && IsOpen(Step(t, Close(fd)), sock))
      && (Recognised(s, s.ids[sock]).None? ==> t.refs[s.ids[sock]] == k && t.fds[fd].role == Owned(k))
  {
    var s := After(INITIAL, es);
    var sock := s.fds[fd].sock;
    var t := Step(s, Intern(fd, k));
    Reachable(es);
    InvStep(s, Intern(fd, k));
    NamedIsOpen(s, fd);
    var hit := Recognised(s, s.ids[sock]);
    if hit.Some? {
      HitSendsThere(s, fd);
      assert Owns(s, hit.value);
      assert Owns(t, hit.value);
      InvStep(t, Close(fd));
      NamedIsOpen(Step(t, Close(fd)), s.inners[hit.value].fd);
    }
  }

  /** A `RefInner` that has not closed its descriptor yet, alive or dying. */
  predicate HeldByRef(s: State, sock: Sock, k: InnerId) {
    SendsOn(s, k, sock) && !s.inners[k].phase.Gone?
  }

  /** A descriptor of somebody else's: received, attached, in flight, or a duplicate. */
  predicate HeldByFd(s: State, sock: Sock, fd: Fd) {
    fd in s.fds && s.fds[fd].sock == sock && !s.fds[fd].role.Owned?
  }

  /** Somebody holds the socket: a `RefInner` up to the end of its drop, a received, attached or
      in-flight descriptor, or a drain's or death watch's duplicate. */
  ghost predicate Held(s: State, sock: Sock) {
    (exists k :: HeldByRef(s, sock, k)) || (exists fd :: HeldByFd(s, sock, fd))
  }

  lemma HeldExactly(s: State, sock: Sock)
    requires Inv(s) && sock in s.ids
    ensures IsOpen(s, sock) <==> Held(s, sock)
  {
    if IsOpen(s, sock) {
      assert Naming(s, sock) != {};
      var fd :| fd in Naming(s, sock);
      if s.fds[fd].role.Owned? {
        assert HeldByRef(s, sock, s.fds[fd].role.inner);
      } else {
        assert HeldByFd(s, sock, fd);
      }
    }
    if k :| HeldByRef(s, sock, k) {
      NamedIsOpen(s, s.inners[k].fd);
    }
    if fd :| HeldByFd(s, sock, fd) {
      NamedIsOpen(s, fd);
    }
  }

  /** In every reachable state a socket is open exactly while somebody holds it. */
  lemma OpenExactlyWhileHeld(es: seq<Event>, sock: Sock)
    requires sock in After(INITIAL, es).ids
    ensures IsOpen(After(INITIAL, es), sock) <==> Held(After(INITIAL, es), sock)
  {
    Reachable(es);
    HeldExactly(After(INITIAL, es), sock);
  }

  lemma ShutStep(s: State, e: Event, sock: Sock)
    requires Inv(s) && sock in s.ids && !IsOpen(s, sock)
    ensures sock in Step(s, e).ids && !IsOpen(Step(s, e), sock) && Step(s, e).ids[sock] == s.ids[sock]
  {
    if e.Dup? && Enabled(s, e) {
      NamedIsOpen(s, e.fd);
    }
  }

  /** A socket once closed is closed for good, and so nobody ever holds it again. */
  lemma {:induction false} ShutForGood(s: State, es: seq<Event>, sock: Sock)
    requires Inv(s) && sock in s.ids && !IsOpen(s, sock)
    ensures sock in After(s, es).ids && !IsOpen(After(s, es), sock)
    decreases |es|
  {
    if es != [] {
      ShutStep(s, es[0], sock);
      InvStep(s, es[0]);
      ShutForGood(Step(s, es[0]), es[1..], sock);
    }
  }

  /** What a `RefInner` sends on never changes while it has its descriptor. */
  lemma SameSocket(s: State, e: Event, k: InnerId, sock: Sock)
    requires Inv(s) && SendsOn(s, k, sock) && k in Step(s, e).inners && !Step(s, e).inners[k].phase.Gone?
    ensures SendsOn(Step(s, e), k, sock)
  {
    InvStep(s, e);
    assert Owns(Step(s, e), k);
    SockKept(s, e, s.inners[k].fd, k);
  }

  lemma SockKept(s: State, e: Event, fd: Fd, k: InnerId)
    requires fd in s.fds && k in s.inners
    ensures fd in Step(s, e).fds ==> Step(s, e).fds[fd].sock == s.fds[fd].sock
    ensures k in Step(s, e).inners && Step(s, e).inners[k].fd == s.inners[k].fd
  {
  }
}
