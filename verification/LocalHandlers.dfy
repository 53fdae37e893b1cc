/** The registry of local handlers: a node is found under its identity for as long as anybody can
    reach it, exactly unless a late unfile by an earlier node with the same identity and the same
    handler's address takes the entry away. */
module LocalHandlers {
  import opened Wire
  import opened Nodes
  import opened NodeInvariant
  import Caps = Capabilities
  import CapabilityInvariant

  /** A node that holds its entry and can still be reached. */
  predicate Findable(s: State, n: NodeId) {
    n in s.nodes && s.nodes[n].filed && s.nodes[n].id.Some? && Reachable(s, n)
  }

  predicate Found(s: State, n: NodeId) {
    n in s.nodes && s.nodes[n].id.Some? && FiledBy(s, s.nodes[n].id.value, n)
  }

  /** The address guard lets another node's late unfile through. */
  predicate Robs(s: State, e: Event, n: NodeId) {
    && e.Unfile? && Enabled(s, e) && e.node != n && n in s.nodes
    && s.nodes[e.node].id == s.nodes[n].id && s.nodes[e.node].address == s.nodes[n].address
  }

  predicate Robbed(s: State, es: seq<Event>, n: NodeId)
    decreases |es|
  {
    es != [] && (Robs(s, es[0], n) || Robbed(Step(s, es[0]), es[1..], n))
  }

  /** Nobody else files under a reachable node's identity: sockets open at once have distinct ones. */
  lemma NobodyElseFiles(s: State, e: Event, n: NodeId)
    requires Inv(s) && Findable(s, n) && e.Create? && Enabled(s, e)
    ensures s.caps.inners[e.inner].id != s.nodes[n].id
  {
    assert NodeOk(s, n) && Caps.Owns(s.caps, e.inner);
    CapabilityInvariant.NamedIsOpen(s.caps, s.caps.inners[e.inner].fd);
    assert s.nodes[n].sock != e.sock;
  }

  /** What a step other than filing under the node's identity does to the node's entry. */
  lemma EntryStep(s: State, e: Event, n: NodeId)
    requires Findable(s, n) && Enabled(s, e) && Findable(Apply(s, e), n)
    requires e.Create? && e.inner in s.caps.inners ==> s.caps.inners[e.inner].id != s.nodes[n].id
    ensures Found(Apply(s, e), n) <==> Found(s, n) && !Robs(s, e, n)
  {
  }

  /** One step: an entry stays exactly unless a late unfile gets past the guard, and once lost it
      stays lost. */
  lemma FoundStep(s: State, e: Event, n: NodeId)
    requires Inv(s) && Findable(s, n) && Findable(Step(s, e), n)
    ensures Found(Step(s, e), n) <==> Found(s, n) && !Robs(s, e, n)
  {
    if Enabled(s, e) {
      if e.Create? {
        NobodyElseFiles(s, e, n);
      }
      EntryStep(s, e, n);
    }
  }

  /** A node that is findable has been all along since it was created. */
  lemma FindableBefore(s: State, e: Event, n: NodeId)
    requires Inv(s) && n in s.nodes && Findable(Step(s, e), n)
    ensures Findable(s, n)
  {
    if Enabled(s, e) {
      if e.Capability? {
        if !Reachable(s, n) {
          assert NodeOk(s, n);
          CapabilityInvariant.ShutStep(s.caps, e.event, s.nodes[n].sock);
        }
      } else if !e.Create? {
        AppliesMoved(s, e);
      }
    }
  }

  lemma {:induction false} FindableThroughout(s: State, es: seq<Event>, n: NodeId)
    requires Inv(s) && n in s.nodes && Findable(After(s, es), n)
    ensures Findable(s, n)
    decreases |es|
  {
    if es != [] {
      InvStep(s, es[0]);
      NodeKept(s, es[0], n);
      FindableThroughout(Step(s, es[0]), es[1..], n);
      FindableBefore(s, es[0], n);
    }
  }

  lemma NodeKept(s: State, e: Event, n: NodeId)
    requires n in s.nodes
    ensures n in Step(s, e).nodes && Step(s, e).nodes[n].id == s.nodes[n].id
    ensures Step(s, e).nodes[n].address == s.nodes[n].address && Step(s, e).nodes[n].sock == s.nodes[n].sock
  {
  }

  lemma {:induction false} LostForGood(s: State, es: seq<Event>, n: NodeId)
    requires Inv(s) && n in s.nodes && !Found(s, n) && Findable(After(s, es), n)
    ensures !Found(After(s, es), n)
    decreases |es|
  {
    if es != [] {
      FindableThroughout(s, es, n);
      InvStep(s, es[0]);
      NodeKept(s, es[0], n);
      FindableThroughout(Step(s, es[0]), es[1..], n);
      FoundStep(s, es[0], n);
      LostForGood(Step(s, es[0]), es[1..], n);
    }
  }

  /** A reachable node that holds its entry is found under its identity exactly unless, at some
      step since, another node with the same identity and address has unfiled. */
  lemma {:induction false} FoundExactly(s: State, es: seq<Event>, n: NodeId)
    requires Inv(s) && Found(s, n) && Findable(After(s, es), n)
    ensures Found(After(s, es), n) <==> !Robbed(s, es, n)
    decreases |es|
  {
    if es != [] {
      FindableThroughout(s, es, n);
      InvStep(s, es[0]);
      NodeKept(s, es[0], n);
      var t := Step(s, es[0]);
      FindableThroughout(t, es[1..], n);
      FoundStep(s, es[0], n);
      if Robs(s, es[0], n) {
        LostForGood(t, es[1..], n);
      } else {
        FoundExactly(t, es[1..], n);
      }
    }
  }

  /** What an unfile takes: everything the node itself had filed, and of other nodes' entries exactly
      one filed under the same identity at the same address. If the other node can be reached, the
      one unfiling cannot: the collision is always a late unfile's. */
  lemma UnfileSpares(s: State, n: NodeId, m: NodeId, id: Caps.SocketId)
    requires Inv(s) && Enabled(s, Unfile(n)) && FiledBy(s, id, m) && m != n
    ensures var t := Step(s, Unfile(n));
      && (forall other :: !FiledBy(t, other, n))
      && (FiledBy(t, id, m) <==> !(s.nodes[n].id == Some(id) && s.nodes[n].address == s.nodes[m].address))
    ensures s.nodes[n].id == Some(id) && Reachable(s, m) ==> !Reachable(s, n)
  {
    EntriesAfterUnfile(s, n, m, id);
    if s.nodes[n].id == Some(id) {
      OneReachable(s, n, m);
    }
  }

  lemma EntriesAfterUnfile(s: State, n: NodeId, m: NodeId, id: Caps.SocketId)
    requires Enabled(s, Unfile(n)) && FiledBy(s, id, m) && m != n
    ensures var t := Step(s, Unfile(n));
      && (forall other :: !FiledBy(t, other, n))
      && (FiledBy(t, id, m) <==> !(s.nodes[n].id == Some(id) && s.nodes[n].address == s.nodes[m].address))
  {
    assert Step(s, Unfile(n)) == Unfiled(s, n);
  }

  /** Of two nodes with the same identity at most one can be reached. */
  lemma OneReachable(s: State, n: NodeId, m: NodeId)
    requires Inv(s) && n in s.nodes && m in s.nodes && m != n
    requires s.nodes[n].id.Some? && s.nodes[n].id == s.nodes[m].id
    ensures !Reachable(s, n) || !Reachable(s, m)
  {
    assert NodeOk(s, n) && NodeOk(s, m);
  }

  // ---- With distinct addresses ----

  /** Entries that coexist were filed at distinct addresses. */
  predicate Distinct(s: State) {
    forall a, b ::
      (&& a in s.nodes && s.nodes[a].filed && b in s.nodes && s.nodes[b].filed
       && s.nodes[a].address == s.nodes[b].address) ==> a == b
  }

  /** No node is created with a handler some entry already names. */
  predicate CleanRun(s: State, es: seq<Event>)
    decreases |es|
  {
    es == [] || (CleanStep(s, es[0]) && CleanRun(Step(s, es[0]), es[1..]))
  }

  predicate CleanStep(s: State, e: Event) {
    e.Create? ==> forall n :: n in s.nodes && s.nodes[n].filed ==> s.nodes[n].address != e.address
  }

  predicate AllFound(s: State) {
    forall n :: n in s.nodes && Findable(s, n) ==> Found(s, n)
  }

  lemma DistinctStep(s: State, e: Event)
    requires Distinct(s) && CleanStep(s, e)
    ensures Distinct(Step(s, e))
  {
  }

  lemma NobodyRobs(s: State, e: Event, n: NodeId)
    requires Distinct(s) && Findable(s, n)
    ensures !Robs(s, e, n)
  {
    if e.Unfile? && Enabled(s, e) {
      DropOrder(s.nodes[e.node]);
    }
  }

  lemma AllFoundStep(s: State, e: Event)
    requires Inv(s) && Distinct(s) && AllFound(s)
    ensures AllFound(Step(s, e))
  {
    forall n | Findable(Step(s, e), n)
      ensures Found(Step(s, e), n)
    {
      if n in s.nodes {
        FindableBefore(s, e, n);
        NobodyRobs(s, e, n);
        FoundStep(s, e, n);
      } else {
        NewIsFound(s, e, n);
      }
    }
  }

  lemma NewIsFound(s: State, e: Event, n: NodeId)
    requires n !in s.nodes && Findable(Step(s, e), n)
    ensures Found(Step(s, e), n)
  {
  }

  lemma {:induction false} AllFoundAfter(s: State, es: seq<Event>)
    requires Inv(s) && Distinct(s) && AllFound(s) && CleanRun(s, es)
    ensures Distinct(After(s, es)) && AllFound(After(s, es))
    decreases |es|
  {
    if es != [] {
      InvStep(s, es[0]);
      DistinctStep(s, es[0]);
      AllFoundStep(s, es[0]);
      AllFoundAfter(Step(s, es[0]), es[1..]);
    }
  }

  /** With distinct addresses, a node whose task goes on is found by every live `Ref` that leads to
      it, and its handler is there to be had. */
  lemma RefFindsItsNode(es: seq<Event>, n: NodeId, k: Caps.InnerId, outside: set<Address>)
    requires CleanRun(INITIAL, es)
    requires n in After(INITIAL, es).nodes
    requires After(INITIAL, es).nodes[n].ending.None? && After(INITIAL, es).nodes[n].id.Some?
    requires CapabilityInvariant.LiveFiled(After(INITIAL, es).caps, k)
    requires Caps.SendsOn(After(INITIAL, es).caps, k, After(INITIAL, es).nodes[n].sock)
    ensures var s := After(INITIAL, es);
      LocalHandler(s, s.caps.inners[k].id.value, outside) == Some(s.nodes[n].address)
  {
    var s := After(INITIAL, es);
    Always(es);
    AllFoundAfter(INITIAL, es);
    LeadsToFindable(s, n, k);
    assert Found(s, n);
  }

  /** A live filed `Ref` to a node whose task goes on has the node's identity, and the node is findable. */
  lemma LeadsToFindable(s: State, n: NodeId, k: Caps.InnerId)
    requires Inv(s) && n in s.nodes && s.nodes[n].ending.None? && s.nodes[n].id.Some?
    requires CapabilityInvariant.LiveFiled(s.caps, k) && Caps.SendsOn(s.caps, k, s.nodes[n].sock)
    ensures Findable(s, n) && s.nodes[n].receiving && s.caps.inners[k].id == s.nodes[n].id
  {
    assert NodeOk(s, n) && Caps.Owns(s.caps, k);
    CapabilityInvariant.NamedIsOpen(s.caps, s.caps.inners[k].fd);
  }

  /** A handler nobody else keeps is found, under an identity it is filed under, exactly while its node's
      handle is kept or its task has its socket: an entry left behind by a task that has let go of its share leads
      nowhere, although it is still filed. */
  lemma KeptExactly(es: seq<Event>, id: Caps.SocketId, n: NodeId, outside: set<Address>)
    requires var s := After(INITIAL, es);
      && FiledBy(s, id, n) && s.nodes[n].address !in outside
      && forall m :: m in s.nodes && s.nodes[m].address == s.nodes[n].address ==> m == n
    ensures var s := After(INITIAL, es);
      && id in s.locals
      && LocalHandler(s, id, outside)
         == if s.nodes[n].handle.Kept? || s.nodes[n].receiving then Some(s.nodes[n].address) else None
  {
  }

  /** What a live `Ref` finds is the node it sends to exactly while the node that filed the entry
      can be reached. */
  lemma RightNodeExactly(es: seq<Event>, n: NodeId, k: Caps.InnerId, sock: Caps.Sock)
    requires CapabilityInvariant.LiveFiled(After(INITIAL, es).caps, k) && Caps.SendsOn(After(INITIAL, es).caps, k, sock)
    requires FiledBy(After(INITIAL, es), After(INITIAL, es).caps.inners[k].id.value, n)
    ensures var s := After(INITIAL, es); s.nodes[n].sock == sock <==> Reachable(s, n)
  {
    var s := After(INITIAL, es);
    Always(es);
    assert NodeOk(s, n) && Caps.Owns(s.caps, k);
    CapabilityInvariant.NamedIsOpen(s.caps, s.caps.inners[k].fd);
  }

  /** A node that has unfiled itself is not found, unless another holds an entry under its identity. */
  lemma GoneIsNotFound(es: seq<Event>, n: NodeId, outside: set<Address>)
    requires n in After(INITIAL, es).nodes && After(INITIAL, es).nodes[n].id.Some?
    requires forall m :: m in After(INITIAL, es).nodes && After(INITIAL, es).nodes[m].id == After(INITIAL, es).nodes[n].id ==>
                           !After(INITIAL, es).nodes[m].filed
    ensures LocalHandler(After(INITIAL, es), After(INITIAL, es).nodes[n].id.value, outside) == None
  {
    Always(es);
  }

  // ---- The registry's size ----

  /** Entries need nodes: there are no more of them than nodes still holding one. */
  lemma {:induction false} EntriesBounded(s: State, ids: set<Caps.SocketId>, holders: set<NodeId>)
    requires forall id :: id in ids ==> exists n :: n in holders && FiledBy(s, id, n)
    ensures |ids| <= |holders|
    decreases ids
  {
    if ids != {} {
      var id :| id in ids;
      var n :| n in holders && FiledBy(s, id, n);
      forall other | other in ids - {id}
        ensures exists m :: m in holders - {n} && FiledBy(s, other, m)
      {
        var m :| m in holders && FiledBy(s, other, m);
        assert m in holders - {n};
      }
      EntriesBounded(s, ids - {id}, holders - {n});
    }
  }

  function Holders(s: State): set<NodeId> {
    set n | n in s.nodes && s.nodes[n].filed
  }

  lemma RegistryBounded(es: seq<Event>)
    ensures |After(INITIAL, es).locals| <= |Holders(After(INITIAL, es))|
  {
    var s := After(INITIAL, es);
    Always(es);
    forall id | id in s.locals.Keys
      ensures exists n :: n in Holders(s) && FiledBy(s, id, n)
    {
      var n :| FiledBy(s, id, n);
      assert n in Holders(s);
    }
    EntriesBounded(s, s.locals.Keys, Holders(s));
  }

  // ---- What the guard does not catch ----

  /** The capabilities in turn: socket 0 opened as inode 7, its `Ref`, the drop of that `Ref` in
      three steps, then socket 1 opened as the same inode, and its `Ref`. */
  const FIRST_REF := Caps.State(map[0 := Caps.Desc(0, Caps.Owned(0))], map[0 := 1], map[0 := 7],
                                map[0 := Caps.Inner(0, Some(7), 1, Caps.Live)], map[7 := 0])

  const FIRST_CLOSED := Caps.State(map[], map[0 := 0], map[0 := 7], map[0 := Caps.Inner(0, Some(7), 0, Caps.Gone)], map[])

  const SECOND_REF := Caps.State(map[1 := Caps.Desc(1, Caps.Owned(1))], map[0 := 0, 1 := 1], map[0 := 7, 1 := 7],
                                 FIRST_CLOSED.inners[1 := Caps.Inner(1, Some(7), 1, Caps.Live)], map[7 := 1])

  const NEW := Node(0, Some(7), 5, Kept, false, [], 0, None, true, true, false)

  const OPENS: seq<Event> :=
    [Capability(Caps.OpenSocket(0, 0, 7)), Capability(Caps.Intern(0, 0)), Create(0, 0, 0, 5)]

  const LETS_GO: seq<Event> :=
    [Capability(Caps.DropRef(0)), Capability(Caps.Unfile(0)), Capability(Caps.CloseInner(0))]

  const REOPENS: seq<Event> := [Capability(Caps.OpenSocket(1, 1, 7)), Capability(Caps.Intern(1, 1))]

  lemma OpensRun()
    ensures After(INITIAL, OPENS) == State(FIRST_REF, map[0 := NEW], map[7 := 5])
  {
  }

  const FIRST_DYING := FIRST_REF.(inners := map[0 := Caps.Inner(0, Some(7), 0, Caps.Unfiling)])

  const FIRST_UNFILED := FIRST_REF.(inners := map[0 := Caps.Inner(0, Some(7), 0, Caps.Closing)], refs := map[])

  lemma FirstRefDies()
    ensures Caps.Step(FIRST_REF, Caps.DropRef(0)) == FIRST_DYING
    ensures Caps.Step(FIRST_DYING, Caps.Unfile(0)) == FIRST_UNFILED
    ensures Caps.Step(FIRST_UNFILED, Caps.CloseInner(0)) == FIRST_CLOSED
  {
    assert Caps.Step(FIRST_REF, Caps.DropRef(0)).inners == FIRST_DYING.inners;
    assert Caps.Step(FIRST_DYING, Caps.Unfile(0)).inners == FIRST_UNFILED.inners;
    assert Caps.Step(FIRST_DYING, Caps.Unfile(0)).refs == FIRST_UNFILED.refs;
  }

  lemma CapabilityOnly(s: State, e: Caps.Event)
    ensures Step(s, Capability(e)) == s.(caps := Caps.Step(s.caps, e))
  {
  }

  lemma LetsGoRun(s: State)
    requires s.caps == FIRST_REF
    ensures After(s, LETS_GO) == s.(caps := FIRST_CLOSED)
  {
    ThreeSteps(s, LETS_GO[0], LETS_GO[1], LETS_GO[2]);
    FirstRefDies();
    CapabilityOnly(s, Caps.DropRef(0));
    CapabilityOnly(s.(caps := FIRST_DYING), Caps.Unfile(0));
    CapabilityOnly(s.(caps := FIRST_UNFILED), Caps.CloseInner(0));
  }

  lemma ReopensRun(s: State)
    requires s.caps == FIRST_CLOSED
    ensures After(s, REOPENS) == s.(caps := SECOND_REF)
  {
    AfterSnoc(s, [REOPENS[0]], REOPENS[1]);
    AfterSnoc(s, [], REOPENS[0]);
    assert [REOPENS[0]] + [REOPENS[1]] == REOPENS && [] + [REOPENS[0]] == [REOPENS[0]];
    SecondRefIsMade();
    CapabilityOnly(s, Caps.OpenSocket(1, 1, 7));
    CapabilityOnly(s.(caps := SECOND_OPEN), Caps.Intern(1, 1));
  }

  const SECOND_OPEN := FIRST_CLOSED.(fds := map[1 := Caps.Desc(1, Caps.Loose)], open := map[0 := 0, 1 := 1],
                                     ids := map[0 := 7, 1 := 7])

  lemma SecondRefIsMade()
    ensures Caps.Step(FIRST_CLOSED, Caps.OpenSocket(1, 1, 7)) == SECOND_OPEN
    ensures Caps.Step(SECOND_OPEN, Caps.Intern(1, 1)) == SECOND_REF
  {
  }

  const STALE: seq<Event> := OPENS + LETS_GO + REOPENS

  lemma StaleState()
    ensures After(INITIAL, STALE) == State(SECOND_REF, map[0 := NEW], map[7 := 5])
  {
    AfterConcat(INITIAL, OPENS + LETS_GO, REOPENS);
    AfterConcat(INITIAL, OPENS, LETS_GO);
    OpensRun();
    LetsGoRun(After(INITIAL, OPENS));
    ReopensRun(After(INITIAL, OPENS + LETS_GO));
  }

  /** A live `Ref` on this socket finds a handler of a node on another. */
  predicate Misled(s: State, k: Caps.InnerId, sock: Caps.Sock) {
    && CapabilityInvariant.LiveFiled(s.caps, k) && Caps.SendsOn(s.caps, k, sock)
    && s.caps.inners[k].id.Some? && LocalHandler(s, s.caps.inners[k].id.value, {}).Some?
    && forall n :: n in s.nodes ==> s.nodes[n].sock != sock
  }

  /** Before a node whose last `Ref` is gone has unfiled itself, a socket that was given its inode
      leads to its handler. */
  lemma StaleHandler()
    ensures Misled(After(INITIAL, STALE), 1, 1)
  {
    StaleState();
    var s := After(INITIAL, STALE);
    assert 0 in s.nodes && s.nodes[0].address == s.locals[7] && s.nodes[0].handle.Kept?;
    assert HandlerAlive(s, 5, {});
  }

  /** A node aborted before its first poll, whose identity and address another node shares, takes
      that node's entry out with its own. */
  lemma LateUnfileRobs(s: State, a: NodeId, b: NodeId)
    requires Found(s, b) && Findable(s, b) && a in s.nodes && a != b
    requires s.nodes[a].id == s.nodes[b].id && s.nodes[a].address == s.nodes[b].address
    requires s.nodes[a].handle.Kept? && s.nodes[a].ending.None? && s.nodes[a].filed && !s.nodes[a].polled
    ensures var t := After(s, [DropNode(a), End(a, Abort), Unfile(a)]); Findable(t, b) && !Found(t, b)
  {
    ThreeSteps(s, DropNode(a), End(a, Abort), Unfile(a));
  }

  const SHARED: seq<Event> := STALE + [Create(1, 1, 1, 5)]

  lemma SharedState()
    ensures After(INITIAL, SHARED) == State(SECOND_REF, map[0 := NEW, 1 := NEW.(sock := 1)], map[7 := 5])
  {
    AfterSnoc(INITIAL, STALE, Create(1, 1, 1, 5));
    StaleState();
    var s := After(INITIAL, STALE);
    assert Enabled(s, Create(1, 1, 1, 5));
  }

  /** One handler shared by two nodes defeats the guard: once their sockets have had the same inode,
      the first node's late unfile takes the second's entry. */
  lemma SharedHandlerRobs()
    ensures var s := After(INITIAL, SHARED + [DropNode(0), End(0, Abort), Unfile(0)]);
      Findable(s, 1) && !Found(s, 1)
  {
    SharedState();
    LateUnfileRobs(After(INITIAL, SHARED), 0, 1);
    AfterConcat(INITIAL, SHARED, [DropNode(0), End(0, Abort), Unfile(0)]);
  }
}
