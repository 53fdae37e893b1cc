/** How long a node lives: as long as somebody can reach it, whatever became of its handle, unless
    an empty record, an error, a panic or an abort ends it first. */
module NodeLifetime {
  import opened Wire
  import opened Nodes
  import opened NodeInvariant
  import Caps = Capabilities
  import CapabilityInvariant

  // ---- Reachability ----

  /** While anybody holds a descriptor for the node's socket, only a fault or a panic can end its
      task, given that its handle was not dropped and nobody sent an empty record. */
  lemma ServesWhileHeld(es: seq<Event>, n: NodeId)
    requires n in After(INITIAL, es).nodes
    requires CapabilityInvariant.Held(After(INITIAL, es).caps, After(INITIAL, es).nodes[n].sock)
    requires !After(INITIAL, es).nodes[n].handle.Dropped?
    requires forall m :: m in After(INITIAL, es).nodes[n].delivered ==> m.data != []
    ensures var ending := After(INITIAL, es).nodes[n].ending;
      ending == None || ending == Some(Fault) || ending == Some(Panic)
  {
    var s := After(INITIAL, es);
    Always(es);
    assert NodeOk(s, n);
    CapabilityInvariant.HeldExactly(s.caps, s.nodes[n].sock);
  }

  lemma UnreachableStep(s: State, e: Event, n: NodeId)
    requires Caps.Inv(s.caps) && n in s.nodes && s.nodes[n].sock in s.caps.ids && !Reachable(s, n)
    ensures n in Step(s, e).nodes && !Reachable(Step(s, e), n)
    ensures Step(s, e).nodes[n].sock == s.nodes[n].sock && Step(s, e).nodes[n].delivered == s.nodes[n].delivered
  {
    if Enabled(s, e) {
      if e.Capability? {
        CapabilityInvariant.ShutStep(s.caps, e.event, s.nodes[n].sock);
      } else if !e.Create? {
        AppliesMoved(s, e);
      }
    }
  }

  lemma {:induction false} UnreachableAfter(s: State, es: seq<Event>, n: NodeId)
    requires Inv(s) && n in s.nodes && !Reachable(s, n)
    ensures n in After(s, es).nodes && !Reachable(After(s, es), n)
    ensures After(s, es).nodes[n].sock == s.nodes[n].sock && After(s, es).nodes[n].delivered == s.nodes[n].delivered
    decreases |es|
  {
    if es != [] {
      assert NodeOk(s, n);
      UnreachableStep(s, es[0], n);
      InvStep(s, es[0]);
      UnreachableAfter(Step(s, es[0]), es[1..], n);
    }
  }

  /** A loop that ended with a hangup missed nothing and abandoned nobody: it had read every record
      ever delivered, nobody held the socket then, nobody ever will again, and no record follows. */
  lemma HangupIsFinal(es: seq<Event>, more: seq<Event>, n: NodeId)
    requires n in After(INITIAL, es).nodes && After(INITIAL, es).nodes[n].ending == Some(Hangup)
    ensures var node := After(INITIAL, es).nodes[n]; var t := After(After(INITIAL, es), more);
      && node.taken == |node.delivered|
      && !CapabilityInvariant.Held(After(INITIAL, es).caps, node.sock) && !CapabilityInvariant.Held(t.caps, node.sock)
      && n in t.nodes && t.nodes[n].delivered == node.delivered
  {
    var s := After(INITIAL, es);
    Always(es);
    assert NodeOk(s, n);
    UnreachableAfter(s, more, n);
    InvAfter(s, more);
    var t := After(s, more);
    assert NodeOk(t, n);
    CapabilityInvariant.HeldExactly(s.caps, s.nodes[n].sock);
    CapabilityInvariant.HeldExactly(t.caps, s.nodes[n].sock);
  }

  // ---- Giving the handle up ----

  /** What the owner of node `n`'s handle does with it. */
  predicate HandleUse(e: Event, n: NodeId) {
    e == ToService(n) || e == DropNode(n)
  }

  /** The same state, but for a handle given up. */
  function AsService(s: State, n: NodeId): State
    requires n in s.nodes
  {
    Put(s, n, s.nodes[n].(handle := Service))
  }

  /** No step but a use of the handle can tell a kept one from one given up. */
  lemma HandleUnseen(s: State, e: Event, n: NodeId)
    requires n in s.nodes && s.nodes[n].handle.Kept? && !HandleUse(e, n)
    ensures Enabled(s, e) <==> Enabled(AsService(s, n), e)
  {
    if e.Create? {
      CreateUnseen(s, e, n);
    }
  }

  lemma CreateUnseen(s: State, e: Event, n: NodeId)
    requires n in s.nodes && e.Create?
    ensures Enabled(s, e) <==> Enabled(AsService(s, n), e)
  {
    var t := AsService(s, n);
    assert forall m :: m in s.nodes ==> s.nodes[m].sock == t.nodes[m].sock;
    assert s.nodes.Keys == t.nodes.Keys;
  }

  /** Giving one handle up and changing another node commute. */
  lemma PutElsewhere(s: State, n: NodeId, m: NodeId, node: Node)
    requires n in s.nodes && m != n
    ensures AsService(Put(s, m, node), n) == Put(AsService(s, n), m, node)
  {
  }

  lemma PutHere(s: State, n: NodeId, node: Node)
    requires n in s.nodes
    ensures AsService(Put(s, n, node), n) == Put(AsService(s, n), n, node.(handle := Service))
  {
  }

  lemma AsServiceStep(s: State, e: Event, n: NodeId)
    requires n in s.nodes && s.nodes[n].handle.Kept? && !HandleUse(e, n)
    ensures n in Step(s, e).nodes && Step(s, e).nodes[n].handle.Kept?
    ensures Step(AsService(s, n), e) == AsService(Step(s, e), n)
  {
    HandleUnseen(s, e, n);
    if Enabled(s, e) {
      AsServiceApply(s, e, n);
    }
  }

  lemma AsServiceApply(s: State, e: Event, n: NodeId)
    requires n in s.nodes && s.nodes[n].handle.Kept? && Enabled(s, e) && Enabled(AsService(s, n), e) && !HandleUse(e, n)
    ensures n in Apply(s, e).nodes && Apply(s, e).nodes[n].handle.Kept?
    ensures Apply(AsService(s, n), e) == AsService(Apply(s, e), n)
  {
    match e {
      case Capability(_) =>
      case Create(m, k, sock, address) => PutElsewhere(s, n, m, Apply(s, e).nodes[m]);
      case _ => AsServiceMoved(s, e, n);
    }
  }

  lemma AsServiceMoved(s: State, e: Event, n: NodeId)
    requires n in s.nodes && s.nodes[n].handle.Kept? && Enabled(s, e) && Enabled(AsService(s, n), e) && !HandleUse(e, n)
    requires !e.Capability? && !e.Create?
    ensures n in Apply(s, e).nodes && Apply(s, e).nodes[n].handle.Kept?
    ensures Apply(AsService(s, n), e) == AsService(Apply(s, e), n)
  {
    AppliesMoved(s, e);
    AppliesMoved(AsService(s, n), e);
    KeptMoved(s.nodes[e.node], e, n);
    var moved := Moved(s.nodes[e.node], e);
    if e.node == n {
      PutHere(s, n, moved);
    } else {
      PutElsewhere(s, n, e.node, moved);
    }
  }

  lemma KeptMoved(node: Node, e: Event, n: NodeId)
    requires !HandleUse(e, n) && !e.Capability? && !e.Create?
    ensures e.node == n ==> Moved(node, e).handle == node.handle
    ensures e.node == n ==> Moved(node.(handle := Service), e) == Moved(node, e).(handle := Service)
  {
  }

  /** `to_service` changes nothing: whatever happens from here on, short of dropping the handle
      kept, happens exactly alike with the handle given up. */
  lemma {:induction false} ToServiceChangesNothing(s: State, n: NodeId, es: seq<Event>)
    requires n in s.nodes && s.nodes[n].handle.Kept?
    requires forall e :: e in es ==> !HandleUse(e, n)
    ensures n in After(s, es).nodes
    ensures After(Step(s, ToService(n)), es) == AsService(After(s, es), n)
    decreases |es|
  {
    assert Step(s, ToService(n)) == AsService(s, n);
    if es != [] {
      AsServiceStep(s, es[0], n);
      var t := Step(s, es[0]);
      assert Step(t, ToService(n)) == AsService(t, n);
      ToServiceChangesNothing(t, n, es[1..]);
    }
  }

  lemma ServiceStep(s: State, e: Event, n: NodeId)
    requires n in s.nodes && s.nodes[n].handle.Service?
    ensures n in Step(s, e).nodes && Step(s, e).nodes[n].handle.Service?
  {
  }

  lemma {:induction false} ServiceForGood(s: State, es: seq<Event>, n: NodeId)
    requires n in s.nodes && s.nodes[n].handle.Service?
    ensures n in After(s, es).nodes && After(s, es).nodes[n].handle.Service?
    decreases |es|
  {
    if es != [] {
      ServiceStep(s, es[0], n);
      ServiceForGood(Step(s, es[0]), es[1..], n);
    }
  }

  /** This schedule aborts the node's task. */
  predicate Aborts(s: State, es: seq<Event>, n: NodeId) {
    n in After(s, es).nodes && After(s, es).nodes[n].ending == Some(Abort)
  }

  /** A task still going can come to be aborted exactly unless its handle was given up. */
  lemma AbortableExactly(es: seq<Event>, n: NodeId)
    requires n in After(INITIAL, es).nodes && After(INITIAL, es).nodes[n].ending.None?
    ensures (exists more :: Aborts(After(INITIAL, es), more, n)) <==> !After(INITIAL, es).nodes[n].handle.Service?
  {
    var s := After(INITIAL, es);
    Always(es);
    if s.nodes[n].handle.Service? {
      forall more
        ensures !Aborts(s, more, n)
      {
        ServiceForGood(s, more, n);
        InvAfter(s, more);
        assert NodeOk(After(s, more), n);
      }
    } else {
      var t := Step(s, DropNode(n));
      AfterSnoc(s, [DropNode(n)], End(n, Abort));
      AfterSnoc(s, [], DropNode(n));
      assert [] + [DropNode(n)] == [DropNode(n)] && After(s, [DropNode(n)]) == t;
      assert Enabled(t, End(n, Abort));
      assert Aborts(s, [DropNode(n)] + [End(n, Abort)], n);
    }
  }

  // ---- Death ----

  lemma AnswersStep(s: State, e: Event, n: NodeId)
    requires n in s.nodes
    ensures n in Step(s, e).nodes && Step(s, e).nodes[n].sock == s.nodes[n].sock
    ensures s.nodes[n].dead ==> Step(s, e).nodes[n].dead
    ensures HungUp(s.nodes[n]) ==> HungUp(Step(s, e).nodes[n])
    ensures s.nodes[n].polled ==> Step(s, e).nodes[n].polled
  {
  }

  /** Neither answer is ever taken back: not the node's own, and not the kernel's to its `Ref`s. */
  lemma {:induction false} AnswersStand(s: State, es: seq<Event>, n: NodeId)
    requires n in s.nodes
    ensures n in After(s, es).nodes && After(s, es).nodes[n].sock == s.nodes[n].sock
    ensures s.nodes[n].dead ==> After(s, es).nodes[n].dead
    ensures HungUp(s.nodes[n]) ==> HungUp(After(s, es).nodes[n])
    ensures s.nodes[n].polled ==> After(s, es).nodes[n].polled
    decreases |es|
  {
    if es != [] {
      AnswersStep(s, es[0], n);
      AnswersStand(Step(s, es[0]), es[1..], n);
    }
  }

  /** `Ref::is_dead`: the kernel reports a hangup because the receiving end has been closed. */
  predicate RefIsDead(s: State, k: Caps.InnerId) {
    exists n :: n in s.nodes && Caps.SendsOn(s.caps, k, s.nodes[n].sock) && HungUp(s.nodes[n])
  }

  /** However a task that got to run ends, once the node reports dead so does every `Ref` to it,
      and both go on doing so. */
  lemma DeathAgreement(es: seq<Event>, more: seq<Event>, n: NodeId, k: Caps.InnerId)
    requires n in After(INITIAL, es).nodes && After(INITIAL, es).nodes[n].polled && After(INITIAL, es).nodes[n].dead
    requires Caps.SendsOn(After(After(INITIAL, es), more).caps, k, After(INITIAL, es).nodes[n].sock)
    ensures var t := After(After(INITIAL, es), more); RefIsDead(t, k) && n in t.nodes && t.nodes[n].dead
  {
    Always(es);
    assert NodeOk(After(INITIAL, es), n);
    AnswersStand(After(INITIAL, es), more, n);
  }

  /** A node reporting dead while its socket still looks alive to every `Ref`. */
  predicate Disagrees(s: State, n: NodeId) {
    n in s.nodes && s.nodes[n].dead && !HungUp(s.nodes[n])
  }

  predicate ComesToDisagree(s: State, es: seq<Event>, n: NodeId) {
    Disagrees(After(s, es), n)
  }

  lemma ServiceStarts(s: State, e: Event, n: NodeId)
    requires n in s.nodes && s.nodes[n].handle.Service? && (s.nodes[n].polled || s.nodes[n].ending.None?)
    ensures n in Step(s, e).nodes && (Step(s, e).nodes[n].polled || Step(s, e).nodes[n].ending.None?)
  {
  }

  lemma {:induction false} ServiceStartsAfter(s: State, es: seq<Event>, n: NodeId)
    requires n in s.nodes && s.nodes[n].handle.Service? && (s.nodes[n].polled || s.nodes[n].ending.None?)
    ensures n in After(s, es).nodes && (After(s, es).nodes[n].polled || After(s, es).nodes[n].ending.None?)
    decreases |es|
  {
    if es != [] {
      ServiceStarts(s, es[0], n);
      ServiceStep(s, es[0], n);
      ServiceStartsAfter(Step(s, es[0]), es[1..], n);
    }
  }

  lemma NeverDisagrees(s: State, es: seq<Event>, n: NodeId)
    requires Inv(s) && n in s.nodes && s.nodes[n].ending.None? && (s.nodes[n].polled || s.nodes[n].handle.Service?)
    ensures !ComesToDisagree(s, es, n)
  {
    InvAfter(s, es);
    AnswersStand(s, es, n);
    assert NodeOk(After(s, es), n);
    if !s.nodes[n].polled {
      ServiceStartsAfter(s, es, n);
    }
  }

  /** A task aborted before its first poll may declare the death before it closes the socket. */
  lemma UnpolledDisagrees(s: State, n: NodeId)
    requires n in s.nodes && Sound(s, s.nodes[n]) && s.nodes[n].ending.None? && !s.nodes[n].polled
    requires !s.nodes[n].handle.Service?
    ensures ComesToDisagree(s, [DropNode(n), End(n, Abort), Declare(n)], n)
  {
    ThreeSteps(s, DropNode(n), End(n, Abort), Declare(n));
    var t := Step(s, DropNode(n));
    assert t.nodes[n].handle.Dropped? && Enabled(t, End(n, Abort));
  }

  /** The two answers can come to disagree exactly for a task not yet polled whose handle has not
      been given up. */
  lemma DisagreementExactly(es: seq<Event>, n: NodeId)
    requires n in After(INITIAL, es).nodes && After(INITIAL, es).nodes[n].ending.None?
    ensures (exists more :: ComesToDisagree(After(INITIAL, es), more, n)) <==>
            !After(INITIAL, es).nodes[n].polled && !After(INITIAL, es).nodes[n].handle.Service?
  {
    var s := After(INITIAL, es);
    Always(es);
    assert NodeOk(s, n);
    if !s.nodes[n].polled && !s.nodes[n].handle.Service? {
      UnpolledDisagrees(s, n);
    } else {
      forall more
        ensures !ComesToDisagree(s, more, n)
      {
        NeverDisagrees(s, more, n);
      }
    }
  }

  // ---- Ending ----

  /** Is this a step of node `n`'s own task? */
  predicate TaskStep(e: Event, n: NodeId) {
    match e
    case Poll(m) => m == n
    case Take(m) => m == n
    case End(m, _) => m == n
    case CloseSocket(m) => m == n
    case Unfile(m) => m == n
    case Declare(m) => m == n
    case _ => false
  }

  /** Nothing of the node is left: socket closed, handler unfiled, death declared. */
  predicate AllGone(node: Node) {
    node.ending.Some? && !node.receiving && !node.filed && node.dead
  }

  /** The task is over, or nobody can reach the node any more. */
  predicate OnItsWayOut(s: State, n: NodeId) {
    n in s.nodes && (s.nodes[n].ending.Some? || !Reachable(s, n))
  }

  function Unread(node: Node): nat {
    if HasRecord(node) then |node.delivered| - node.taken else 0
  }

  /** How many steps the task of a node on its way out has left, at most. */
  function Remaining(node: Node): nat {
    (if node.ending.Some? then 0 else Unread(node) + 1 + (if node.polled then 0 else 1))
    + (if node.receiving then 1 else 0) + (if node.filed then 1 else 0) + (if node.dead then 0 else 1)
  }

  /** How many of the schedule's steps are the node's own task's, and enabled. */
  function OwnSteps(s: State, es: seq<Event>, n: NodeId): nat
    decreases |es|
  {
    if es == [] then 0
    else (if Enabled(s, es[0]) && TaskStep(es[0], n) then 1 else 0) + OwnSteps(Step(s, es[0]), es[1..], n)
  }

  lemma MovedRemaining(s: State, e: Event, n: NodeId)
    requires OnItsWayOut(s, n) && Enabled(s, e) && !e.Capability? && !e.Create? && e.node == n
    ensures (if TaskStep(e, n) then 1 else 0) + Remaining(Moved(s.nodes[n], e)) <= Remaining(s.nodes[n])
    ensures s.nodes[n].ending.Some? ==> Moved(s.nodes[n], e).ending.Some?
  {
  }

  lemma RemainingStep(s: State, e: Event, n: NodeId)
    requires Inv(s) && OnItsWayOut(s, n)
    ensures OnItsWayOut(Step(s, e), n)
    ensures (if Enabled(s, e) && TaskStep(e, n) then 1 else 0) + Remaining(Step(s, e).nodes[n]) <= Remaining(s.nodes[n])
  {
    assert NodeOk(s, n);
    if !Reachable(s, n) {
      UnreachableStep(s, e, n);
    }
    RemainingMoves(s, e, n);
  }

  lemma RemainingMoves(s: State, e: Event, n: NodeId)
    requires OnItsWayOut(s, n)
    ensures n in Step(s, e).nodes && (s.nodes[n].ending.Some? ==> Step(s, e).nodes[n].ending.Some?)
    ensures (if Enabled(s, e) && TaskStep(e, n) then 1 else 0) + Remaining(Step(s, e).nodes[n]) <= Remaining(s.nodes[n])
  {
    if Enabled(s, e) && !e.Capability? && !e.Create? {
      AppliesMoved(s, e);
      if e.node == n {
        MovedRemaining(s, e, n);
      }
    }
  }

  lemma {:induction false} RemainingAfter(s: State, es: seq<Event>, n: NodeId)
    requires Inv(s) && OnItsWayOut(s, n)
    ensures OnItsWayOut(After(s, es), n)
    ensures OwnSteps(s, es, n) + Remaining(After(s, es).nodes[n]) <= Remaining(s.nodes[n])
    decreases |es|
  {
    if es != [] {
      RemainingStep(s, es[0], n);
      InvStep(s, es[0]);
      RemainingAfter(Step(s, es[0]), es[1..], n);
    }
  }

  /** The step the task of a node on its way out takes next. */
  function NextTaskStep(s: State, n: NodeId): Event
    requires n in s.nodes
  {
    var node := s.nodes[n];
    if node.ending.None? then
      if !node.polled then Poll(n)
      else if HasRecord(node) && !NextIsEmpty(node) then Take(n)
      else End(n, if HasRecord(node) then EmptyRecord else Hangup)
    else if node.receiving then CloseSocket(n)
    else if node.filed then Unfile(n)
    else Declare(n)
  }

  lemma TaskCanStep(s: State, n: NodeId)
    requires OnItsWayOut(s, n) && !AllGone(s.nodes[n])
    ensures TaskStep(NextTaskStep(s, n), n) && Enabled(s, NextTaskStep(s, n))
  {
  }

  /** Once the last holder is gone, or the task is over for any other reason, then whatever the others
      do: the task always has a step to take until nothing of the node is left, nothing is left once
      it has taken as many as remained, and those are at most five more than there were records
      unread, started or not. */
  lemma DiesOnceUnreachable(es: seq<Event>, more: seq<Event>, n: NodeId)
    requires OnItsWayOut(After(INITIAL, es), n)
    ensures var s := After(INITIAL, es); var t := After(s, more);
      && n in t.nodes
      && OwnSteps(s, more, n) <= Remaining(s.nodes[n]) <= Unread(s.nodes[n]) + 5
      && (AllGone(t.nodes[n]) <==> Remaining(t.nodes[n]) == 0)
      && (OwnSteps(s, more, n) == Remaining(s.nodes[n]) ==> AllGone(t.nodes[n]))
      && (!AllGone(t.nodes[n]) ==> TaskStep(NextTaskStep(t, n), n) && Enabled(t, NextTaskStep(t, n)))
  {
    var s := After(INITIAL, es);
    Always(es);
    RemainingAfter(s, more, n);
    if !AllGone(After(s, more).nodes[n]) {
      TaskCanStep(After(s, more), n);
    }
  }
}
