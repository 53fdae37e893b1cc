/** References handed out and dropped: the strong count is what is outstanding, and a `RefInner` goes
    when, and only when, nothing is. */
module RefCounts {
  import opened Wire
  import opened Capabilities
  import opened CapabilityInvariant

  /** The `RefInner` a step hands its holder a reference to: interning answers with the one the arrival
      is recognised as, or a new one; a clone with the one cloned. */
  function HandsOut(s: State, e: Event): Option<InnerId> {
    if !Enabled(s, e) then None
    else
      match e
      case Intern(fd, k) =>
        var hit := Recognised(s, s.ids[s.fds[fd].sock]);
        if hit.Some? then hit else Some(k)
      case InternUnfiled(_, k) => Some(k)
      case CloneRef(k) => Some(k)
      case _ => None
  }

  /** The references handed out to `k`, over a run. */
  function HandedOut(s: State, es: seq<Event>, k: InnerId): nat
    decreases |es|
  {
    if es == [] then 0
    else (if HandsOut(s, es[0]) == Some(k) then 1 else 0) + HandedOut(Step(s, es[0]), es[1..], k)
  }

  predicate Drops(s: State, e: Event, k: InnerId) {
    Enabled(s, e) && e == DropRef(k)
  }

  /** And those dropped. */
  function DroppedIn(s: State, es: seq<Event>, k: InnerId): nat
    decreases |es|
  {
    if es == [] then 0 else (if Drops(s, es[0], k) then 1 else 0) + DroppedIn(Step(s, es[0]), es[1..], k)
  }

  function Strong(s: State, k: InnerId): nat {
    if k in s.inners then s.inners[k].strong else 0
  }

  lemma StrongIntern(s: State, fd: Fd, spare: InnerId, k: InnerId)
    requires Registry(s) && Enabled(s, Intern(fd, spare))
    ensures Strong(Apply(s, Intern(fd, spare)), k)
         == Strong(s, k) + (if HandsOut(s, Intern(fd, spare)) == Some(k) then 1 else 0)
  {
  }

  lemma StrongStep(s: State, e: Event, k: InnerId)
    requires Registry(s)
    ensures Strong(Step(s, e), k) + (if Drops(s, e, k) then 1 else 0)
         == Strong(s, k) + (if HandsOut(s, e) == Some(k) then 1 else 0)
  {
    if Enabled(s, e) {
      if e.Intern? {
        StrongIntern(s, e.fd, e.inner, k);
      } else {
        assert e.InternUnfiled? ==> e.inner !in s.inners;
      }
    }
  }

  lemma {:induction false} StrongAfter(s: State, es: seq<Event>, k: InnerId)
    requires Inv(s)
    ensures Strong(After(s, es), k) + DroppedIn(s, es, k) == Strong(s, k) + HandedOut(s, es, k)
    decreases |es|
  {
    if es != [] {
      StrongStep(s, es[0], k);
      InvStep(s, es[0]);
      StrongAfter(Step(s, es[0]), es[1..], k);
    }
  }

  /** In every reachable state the strong count is exactly the references handed out less those
      dropped, and the `RefInner` is alive exactly while that is not zero. */
  lemma StrongExactly(es: seq<Event>, k: InnerId)
    ensures Strong(After(INITIAL, es), k) == HandedOut(INITIAL, es, k) - DroppedIn(INITIAL, es, k)
    ensures k in After(INITIAL, es).inners ==>
              (After(INITIAL, es).inners[k].phase.Live? <==> HandedOut(INITIAL, es, k) > DroppedIn(INITIAL, es, k))
  {
    StrongAfter(INITIAL, es, k);
    Reachable(es);
    if k in After(INITIAL, es).inners {
      assert Owns(After(INITIAL, es), k);
    }
  }

  // ---- Once every reference has been dropped ----

  /** How many steps of its `drop` a `RefInner` has left. */
  function StepsLeft(r: Inner): nat {
    match r.phase
    case Live => 3
    case Unfiling => 2
    case Closing => 1
    case Gone => 0
  }

  /** Is this a step of its `drop`? */
  predicate Dismantles(s: State, e: Event, k: InnerId) {
    Enabled(s, e) && (e == Unfile(k) || e == CloseInner(k))
  }

  function Dismantling(s: State, es: seq<Event>, k: InnerId): nat
    decreases |es|
  {
    if es == [] then 0 else (if Dismantles(s, es[0], k) then 1 else 0) + Dismantling(Step(s, es[0]), es[1..], k)
  }

  /** Dead, or dying. */
  predicate Doomed(s: State, k: InnerId) {
    k in s.inners && !s.inners[k].phase.Live?
  }

  lemma DoomedStep(s: State, e: Event, k: InnerId)
    requires Registry(s) && Doomed(s, k)
    ensures Doomed(Step(s, e), k) && HandsOut(s, e) != Some(k)
    ensures StepsLeft(Step(s, e).inners[k]) + (if Dismantles(s, e, k) then 1 else 0) == StepsLeft(s.inners[k])
  {
    assert Owns(s, k);
  }

  lemma {:induction false} DoomedAfter(s: State, es: seq<Event>, k: InnerId)
    requires Inv(s) && Doomed(s, k)
    ensures Doomed(After(s, es), k) && HandedOut(s, es, k) == 0
    ensures StepsLeft(After(s, es).inners[k]) + Dismantling(s, es, k) == StepsLeft(s.inners[k])
    decreases |es|
  {
    if es != [] {
      DoomedStep(s, es[0], k);
      InvStep(s, es[0]);
      DoomedAfter(Step(s, es[0]), es[1..], k);
    }
  }

  /** The next step of its `drop`. */
  function NextOfDrop(r: Inner, k: InnerId): Event {
    if r.phase.Unfiling? then Unfile(k) else CloseInner(k)
  }

  lemma NextEnabled(s: State, k: InnerId)
    requires Inv(s) && Doomed(s, k) && !s.inners[k].phase.Gone?
    ensures Enabled(s, NextOfDrop(s.inners[k], k))
  {
    assert Owns(s, k);
    if s.inners[k].phase.Closing? {
      NamedIsOpen(s, s.inners[k].fd);
    }
  }

  /** Once as many references to a `RefInner` have been dropped as were handed out, then whatever happens
      next: none is ever handed out again; its own `drop` has a step to take until it is gone, which
      is after at most two; and when it is gone nothing is filed for it and it owns no descriptor. */
  lemma LastDropEnds(es1: seq<Event>, es2: seq<Event>, k: InnerId)
    requires k in After(INITIAL, es1).inners
    requires HandedOut(INITIAL, es1, k) == DroppedIn(INITIAL, es1, k)
    ensures var s := After(INITIAL, es1); var t := After(s, es2);
      && k in t.inners && HandedOut(s, es2, k) == 0
      && StepsLeft(t.inners[k]) + Dismantling(s, es2, k) == StepsLeft(s.inners[k]) <= 2
      && (!t.inners[k].phase.Gone? ==> Enabled(t, NextOfDrop(t.inners[k], k)))
      && (t.inners[k].phase.Gone? ==> Forgotten(t, k))
  {
    var s := After(INITIAL, es1);
    var t := After(s, es2);
    Reachable(es1);
    InvAfter(s, es2);
    StrongExactly(es1, k);
    DoomedAfter(s, es2, k);
    if t.inners[k].phase.Gone? {
      GoneIsForgotten(t, k);
    } else {
      NextEnabled(t, k);
    }
  }

  /** Nothing is filed for it, and it owns no descriptor. */
  predicate Forgotten(s: State, k: InnerId) {
    && (forall id :: id in s.refs ==> s.refs[id] != k)
    && (forall fd :: fd in s.fds ==> s.fds[fd].role != Owned(k))
  }

  lemma GoneIsForgotten(s: State, k: InnerId)
    requires Registry(s) && k in s.inners && s.inners[k].phase.Gone?
    ensures Forgotten(s, k)
  {
  }
}
