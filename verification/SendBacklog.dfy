/** What becomes of a backlog: exactly when the fast path reopens behind it, and what of it reaches the
    wire once the last `Ref` is gone. */
module SendBacklog {
  import opened Wire
  import opened SendModel
  import opened SendInvariant
  import opened SendOrder

  /** Could the kernel take it? */
  predicate CanSend(s: State, p: Parcel) {
    s.peerOpen && Sendable(p.message)
  }

  /** The drain's send has failed. */
  predicate Failed(d: Drain) {
    d.Faulted? || d.Stopping? || d.Stopped?
  }

  /** A message that cannot be sent has something queued behind it, or had. */
  predicate Blocked(s: State) {
    || s.stranded != []
    || (Failed(Main(s).drain) && Main(s).queue != [])
    || exists i :: 0 <= i < |Line(s)| - 1 && !CanSend(s, Line(s)[i])
  }

  /** The drain steps left, at most, before there is nothing more for it to send. */
  function Work(b: Box): nat {
    match b.drain
    case Receiving => 3 * |b.queue|
    case Holding(_) => 3 * |b.queue| + 2
    case Delivered => 3 * |b.queue| + 1
    case Faulted => 1
    case _ => 0
  }

  /** Does this step move the drain on? A blocked send does not. */
  predicate Advances(s: State, e: Event) {
    Enabled(s, e) && (e.DrainReceive? || (e.DrainSend? && !e.outcome.WouldBlock?) || e.DrainRelease?)
  }

  function Effort(s: State, es: seq<Event>): nat
    decreases |es|
  {
    if es == [] then 0 else (if Advances(s, es[0]) then 1 else 0) + Effort(Step(s, es[0]), es[1..])
  }

  /** Steps of drain tasks and of a reading peer. */
  predicate Background(e: Event) {
    e.DrainReceive? || e.DrainSend? || e.DrainRelease? || e.DrainStop? || e.DrainFinish? || e.PeerRead?
  }

  predicate AllBackground(es: seq<Event>) {
    forall i :: 0 <= i < |es| ==> Background(es[i])
  }

  // ---- Once blocked, for ever blocked ----

  lemma BlockedPending(s: State)
    requires Account(s) && Blocked(s)
    ensures Main(s).pending > 0
  {
  }

  /** A call's step only ever adds to the back of the line. */
  lemma CallExtendsLine(s: State, e: Event)
    requires Shape(s) && s.installed.Some? && Enabled(s, e) && ByCall(e)
    ensures var t := Apply(s, e);
      && Main(t).drain == Main(s).drain && Main(s).queue <= Main(t).queue && t.peerOpen == s.peerOpen
  {
    if e.Push? || e.PermitSend? {
      ChannelExtendsLine(s, e);
    } else {
      CallKeepsLine(s, e);
    }
  }

  lemma ChannelExtendsLine(s: State, e: Event)
    requires Shape(s) && s.installed.Some? && Enabled(s, e) && (e.Push? || e.PermitSend?)
    ensures var t := ApplyCall(s, e);
      && Main(t).drain == Main(s).drain && Main(s).queue <= Main(t).queue && t.peerOpen == s.peerOpen
  {
    assert CallShape(s, s.calls[e.call]);
  }

  lemma CallKeepsLine(s: State, e: Event)
    requires Shape(s) && s.installed.Some? && Enabled(s, e) && ByCall(e) && !e.Push? && !e.PermitSend?
    ensures var t := ApplyCall(s, e);
      Main(t).drain == Main(s).drain && Main(t).queue == Main(s).queue && t.peerOpen == s.peerOpen
  {
    match e {
      case Begin(_, _, _) | LookForOutbox(_) | LoadPending(_) | InlineSend(_, _) | GetOutbox(_) =>
      case Build(_, _, _) | Install(_) | Cancel(_) => LookingKeepsLine(s, e);
      case _ => CountingKeepsLine(s, e);
    }
  }

  lemma LookingKeepsLine(s: State, e: Event)
    requires Shape(s) && s.installed.Some? && Enabled(s, e) && (e.Build? || e.Install? || e.Cancel?)
    ensures var t := ApplyCall(s, e);
      Main(t).drain == Main(s).drain && Main(t).queue == Main(s).queue && t.peerOpen == s.peerOpen
  {
    assert CallShape(s, s.calls[e.call]);
  }

  lemma CountingKeepsLine(s: State, e: Event)
    requires Shape(s) && s.installed.Some? && Enabled(s, e)
    requires e.Claim? || e.Withdraw? || e.Grant? || e.Commit? || e.ReserveClosed?
    ensures var t := ApplyCall(s, e);
      Main(t).drain == Main(s).drain && Main(t).queue == Main(s).queue && t.peerOpen == s.peerOpen
  {
    assert CallShape(s, s.calls[e.call]);
  }

  /** What lies ahead of a longer line's new part is unchanged. */
  lemma BlockedExtended(s: State, t: State)
    requires Blocked(s) && Main(t).drain == Main(s).drain && Main(s).queue <= Main(t).queue
    requires s.stranded <= t.stranded && (t.peerOpen ==> s.peerOpen)
    ensures Blocked(t)
  {
    assert Line(s) <= Line(t);
    if i :| 0 <= i < |Line(s)| - 1 && !CanSend(s, Line(s)[i]) {
      assert !CanSend(t, Line(t)[i]);
    }
  }

  lemma SendKeepsBlocked(s: State, o: BoxId, outcome: Outcome)
    requires Shape(s) && Blocked(s) && Enabled(s, DrainSend(o, outcome))
    ensures Blocked(Apply(s, DrainSend(o, outcome)))
  {
    BusyIsMain(s, o);
    var t := Apply(s, DrainSend(o, outcome));
    assert Line(s) == [Main(s).drain.parcel] + Main(s).queue;
    if outcome.Sent? && s.stranded == [] {
      var i :| 0 <= i < |Line(s)| - 1 && !CanSend(s, Line(s)[i]);
      assert Line(t) == Main(s).queue && Line(t)[i - 1] == Line(s)[i];
      assert !CanSend(t, Line(t)[i - 1]);
    }
  }

  lemma ReceiveKeepsBlocked(s: State, o: BoxId)
    requires Shape(s) && Blocked(s) && Enabled(s, DrainReceive(o))
    ensures Blocked(Apply(s, DrainReceive(o)))
  {
    BusyIsMain(s, o);
    assert Line(Apply(s, DrainReceive(o))) == Line(s);
  }

  lemma ReleaseKeepsBlocked(s: State, o: BoxId)
    requires Shape(s) && Blocked(s) && Enabled(s, DrainRelease(o))
    ensures Blocked(Apply(s, DrainRelease(o)))
  {
    BusyIsMain(s, o);
    assert Line(Apply(s, DrainRelease(o))) == Line(s);
  }

  lemma StopKeepsBlocked(s: State, o: BoxId)
    requires Shape(s) && Blocked(s) && Enabled(s, DrainStop(o))
    ensures Blocked(Apply(s, DrainStop(o)))
  {
    BusyIsMain(s, o);
  }

  lemma FinishKeepsBlocked(s: State, o: BoxId)
    requires Blocked(s) && Enabled(s, DrainFinish(o))
    ensures Blocked(Apply(s, DrainFinish(o)))
  {
    assert Line(Apply(s, DrainFinish(o))) == Line(s);
  }

  lemma DrainKeepsBlocked(s: State, e: Event)
    requires Shape(s) && Blocked(s) && Enabled(s, e)
    requires e.DrainReceive? || e.DrainSend? || e.DrainRelease? || e.DrainStop? || e.DrainFinish?
    ensures Blocked(Apply(s, e))
  {
    match e {
      case DrainReceive(o) => ReceiveKeepsBlocked(s, o);
      case DrainSend(o, outcome) => SendKeepsBlocked(s, o, outcome);
      case DrainRelease(o) => ReleaseKeepsBlocked(s, o);
      case DrainStop(o) => StopKeepsBlocked(s, o);
      case DrainFinish(o) => FinishKeepsBlocked(s, o);
    }
  }

  lemma BlockedStep(s: State, e: Event)
    requires Shape(s) && Faults(s) && Blocked(s)
    ensures Blocked(Step(s, e))
  {
    if Enabled(s, e) {
      if ByCall(e) {
        CallKeepsBlocked(s, e);
      } else if e.DropLastRef? || e.PeerRead? || e.PeerClose? {
        PeerKeepsBlocked(s, e);
      } else {
        DrainKeepsBlocked(s, e);
      }
    }
  }

  lemma CallKeepsBlocked(s: State, e: Event)
    requires Shape(s) && Faults(s) && Blocked(s) && Enabled(s, e) && ByCall(e)
    ensures Blocked(Apply(s, e))
  {
    BlockedIsInstalled(s);
    CallLogs(s, e);
    CallExtendsLine(s, e);
    BlockedExtended(s, Apply(s, e));
  }

  lemma PeerKeepsBlocked(s: State, e: Event)
    requires Blocked(s) && Enabled(s, e) && (e.DropLastRef? || e.PeerRead? || e.PeerClose?)
    ensures Blocked(Apply(s, e))
  {
    BlockedExtended(s, Apply(s, e));
  }

  lemma BlockedIsInstalled(s: State)
    requires Faults(s) && Blocked(s)
    ensures s.installed.Some?
  {
  }

  lemma {:induction false} BlockedAfter(s: State, es: seq<Event>)
    requires Inv(s) && Blocked(s)
    ensures Blocked(After(s, es)) && Main(After(s, es)).pending > 0
    decreases |es|
  {
    if es == [] {
      BlockedPending(s);
    } else {
      BlockedStep(s, es[0]);
      InvStep(s, es[0]);
      BlockedAfter(Step(s, es[0]), es[1..]);
    }
  }

  // ---- Otherwise every drain step counts ----

  lemma ReceiveWork(s: State, o: BoxId)
    requires Shape(s) && Enabled(s, DrainReceive(o))
    ensures Work(Main(Apply(s, DrainReceive(o)))) + 1 == Work(Main(s))
    ensures !Blocked(s) ==> !Blocked(Apply(s, DrainReceive(o)))
  {
    BusyIsMain(s, o);
    assert Line(Apply(s, DrainReceive(o))) == Line(s);
  }

  lemma SendWork(s: State, o: BoxId, outcome: Outcome)
    requires Shape(s) && Enabled(s, DrainSend(o, outcome))
    ensures var t := Apply(s, DrainSend(o, outcome)); var done := if outcome.WouldBlock? then 0 else 1;
      && Work(Main(t)) + done <= Work(Main(s))
      && (!Blocked(s) ==> !Blocked(t) && Work(Main(t)) + done == Work(Main(s)))
  {
    BusyIsMain(s, o);
    var t := Apply(s, DrainSend(o, outcome));
    var p := Main(s).drain.parcel;
    assert Line(s) == [p] + Main(s).queue;
    if outcome.Broken? {
      assert !CanSend(s, Line(s)[0]);
    } else if outcome.Sent? {
      assert forall i :: 0 <= i < |Line(t)| ==> Line(t)[i] == Line(s)[i + 1];
    }
  }

  lemma ReleaseWork(s: State, o: BoxId)
    requires Shape(s) && Enabled(s, DrainRelease(o))
    ensures Work(Main(Apply(s, DrainRelease(o)))) + 1 == Work(Main(s))
    ensures !Blocked(s) ==> !Blocked(Apply(s, DrainRelease(o)))
  {
    BusyIsMain(s, o);
    assert Line(Apply(s, DrainRelease(o))) == Line(s);
  }

  lemma IdleWork(s: State, e: Event)
    requires Shape(s) && Faults(s) && Enabled(s, e) && (e.DrainStop? || e.DrainFinish? || e.PeerRead?)
    ensures Work(Main(Apply(s, e))) == Work(Main(s)) && (!Blocked(s) ==> !Blocked(Apply(s, e)))
  {
    if e.DrainStop? {
      BusyIsMain(s, e.box);
    } else {
      assert Line(Apply(s, e)) == Line(s);
    }
  }

  /** Each drain step that advances lowers the work, by exactly one unless something is blocked. */
  lemma WorkStep(s: State, e: Event)
    requires Shape(s) && Faults(s) && Background(e)
    ensures var t := Step(s, e); var done := if Advances(s, e) then 1 else 0;
      && Work(Main(t)) + done <= Work(Main(s))
      && (!Blocked(s) ==> !Blocked(t) && Work(Main(t)) + done == Work(Main(s)))
  {
    if Enabled(s, e) {
      if e.DrainStop? || e.DrainFinish? || e.PeerRead? {
        IdleWork(s, e);
      } else {
        BusyWork(s, e);
      }
    }
  }

  lemma BusyWork(s: State, e: Event)
    requires Shape(s) && Enabled(s, e) && (e.DrainReceive? || e.DrainSend? || e.DrainRelease?)
    ensures var t := Apply(s, e); var done := if Advances(s, e) then 1 else 0;
      && Work(Main(t)) + done <= Work(Main(s))
      && (!Blocked(s) ==> !Blocked(t) && Work(Main(t)) + done == Work(Main(s)))
  {
    match e {
      case DrainReceive(o) => ReceiveWork(s, o);
      case DrainSend(o, outcome) => SendWork(s, o, outcome);
      case DrainRelease(o) => ReleaseWork(s, o);
    }
  }

  lemma BackgroundKeeps(s: State, e: Event)
    requires Background(e)
    ensures Step(s, e).calls == s.calls && Step(s, e).peerOpen == s.peerOpen
    ensures Step(s, e).held == s.held && Step(s, e).accepted == s.accepted
  {
  }

  lemma {:induction false} WorkAfter(s: State, es: seq<Event>)
    requires Inv(s) && AllBackground(es)
    ensures var t := After(s, es);
      && Work(Main(t)) + Effort(s, es) <= Work(Main(s))
      && (!Blocked(s) ==> !Blocked(t) && Work(Main(t)) + Effort(s, es) == Work(Main(s)))
      && t.calls == s.calls && Inv(t)
    decreases |es|
  {
    if es != [] {
      BackgroundKeeps(s, es[0]);
      WorkStep(s, es[0]);
      InvStep(s, es[0]);
      assert AllBackground(es[1..]);
      WorkAfter(Step(s, es[0]), es[1..]);
    }
  }

  lemma NoWorkNothingPending(s: State)
    requires Account(s) && Faults(s) && !Blocked(s) && Work(Main(s)) == 0 && Claimers(s) == {}
    ensures Main(s).pending == 0
  {
  }

  /** From any reachable state with no caller mid-push and nothing queued behind a message that cannot
      be sent: every schedule of drain and peer steps lowers the backlog by one for each step the
      drain takes, so the fast path is open after exactly `Work` of them, and `Work` is bounded by the
      depth. */
  lemma FastPathReopens(es1: seq<Event>, es2: seq<Event>)
    requires !Blocked(After(INITIAL, es1)) && Claimers(After(INITIAL, es1)) == {} && AllBackground(es2)
    ensures var s := After(INITIAL, es1); var t := After(s, es2);
      && Effort(s, es2) <= Work(Main(s)) <= 3 * DEPTH + 2
      && (Effort(s, es2) == Work(Main(s)) ==> Main(t).pending == 0)
      && (Main(t).pending != 0 ==> Effort(s, es2) < Work(Main(s)))
  {
    var s := After(INITIAL, es1);
    var t := After(s, es2);
    Reachable(es1);
    WorkAfter(s, es2);
    WorkBound(s);
    assert Claimers(t) == Claimers(s);
    if Effort(s, es2) == Work(Main(s)) {
      NoWorkNothingPending(t);
    }
  }

  lemma WorkBound(s: State)
    requires Account(s)
    ensures Work(Main(s)) <= 3 * DEPTH + 2
  {
  }

  /** The step the drain can take while there is work to do. */
  function NextDrainEvent(s: State): Event
    requires s.installed.Some?
  {
    var o := s.installed.value;
    match Main(s).drain
    case Receiving => DrainReceive(o)
    case Holding(p) => DrainSend(o, if CanSend(s, p) then Sent else Broken)
    case _ => DrainRelease(o)
  }

  /** While there is work, the drain can take a step that advances it, whatever is in line and whether
      or not the peer is there; and once the peer has read everything, the kernel cannot answer that
      it would block. */
  lemma WorkCanAdvance(s: State)
    requires Shape(s) && Work(Main(s)) > 0
    ensures s.installed.Some? && Advances(s, NextDrainEvent(s)) && Background(NextDrainEvent(s))
    ensures s.read == |s.wire| ==> !Enabled(s, DrainSend(s.installed.value, WouldBlock))
  {
  }

  lemma EffortCons(s: State, e: Event, es: seq<Event>)
    requires Background(e) && Advances(s, e) && AllBackground(es)
    ensures AllBackground([e] + es) && Effort(s, [e] + es) == 1 + Effort(Step(s, e), es)
  {
  }

  /** There is always a schedule that works the backlog off. */
  lemma {:induction false} RunOut(s: State) returns (es: seq<Event>)
    requires Inv(s)
    ensures AllBackground(es) && |es| == Effort(s, es) && Work(Main(After(s, es))) == 0
    decreases Work(Main(s))
  {
    es := [];
    if Work(Main(s)) > 0 {
      WorkCanAdvance(s);
      var e := NextDrainEvent(s);
      WorkStep(s, e);
      InvStep(s, e);
      var rest := RunOut(Step(s, e));
      EffortCons(s, e, rest);
      AfterCons(s, e, rest);
      es := [e] + rest;
    }
  }

  /** If nothing is blocked, one of exactly `Work` steps reopens the fast path. */
  lemma CatchUp(s: State) returns (es: seq<Event>)
    requires Inv(s) && !Blocked(s) && Claimers(s) == {}
    ensures AllBackground(es) && |es| == Effort(s, es) == Work(Main(s)) && Main(After(s, es)).pending == 0
  {
    es := RunOut(s);
    WorkAfter(s, es);
    assert Claimers(After(s, es)) == {};
    NoWorkNothingPending(After(s, es));
  }

  predicate Reopens(s: State, es: seq<Event>) {
    Main(After(s, es)).pending == 0
  }

  predicate ReopensInBackground(s: State, es: seq<Event>) {
    AllBackground(es) && Reopens(s, es)
  }

  /** From a reachable state with no caller mid-push the fast path can ever reopen exactly unless a
      message that cannot be sent has something queued behind it, or had; and if it can, the drain
      does it alone. */
  lemma ReopensExactly(es: seq<Event>)
    requires Claimers(After(INITIAL, es)) == {}
    ensures var s := After(INITIAL, es); (exists more :: Reopens(s, more)) <==> !Blocked(s)
    ensures var s := After(INITIAL, es); (exists more :: ReopensInBackground(s, more)) <==> !Blocked(s)
  {
    var s := After(INITIAL, es);
    Reachable(es);
    if Blocked(s) {
      forall more
        ensures !Reopens(s, more)
      {
        BlockedAfter(s, more);
      }
    } else {
      var more := CatchUp(s);
      assert ReopensInBackground(s, more) && Reopens(s, more);
    }
  }

  // ---- The last `Ref` dropped with a backlog ----

  /** Everything ahead of the first oversized message. */
  function Ahead(ps: seq<Parcel>): seq<Parcel> {
    if ps == [] || !Sendable(ps[0].message) then [] else [ps[0]] + Ahead(ps[1..])
  }

  /** That is, the longest prefix that can be sent. */
  lemma {:induction false} AheadIsLongest(ps: seq<Parcel>)
    ensures Ahead(ps) <= ps && forall p :: p in Ahead(ps) ==> Sendable(p.message)
    ensures |Ahead(ps)| < |ps| ==> !Sendable(ps[|Ahead(ps)|].message)
  {
    if ps != [] {
      AheadIsLongest(ps[1..]);
      assert ps == [ps[0]] + ps[1..];
    }
  }

  /** What of the line is going to reach the wire while the peer stays. */
  function Due(s: State): seq<Parcel> {
    if s.peerOpen && !Failed(Main(s).drain) then Ahead(Line(s)) else []
  }

  /** It is all of it exactly if the drain has not failed and all of it can be sent. */
  lemma DueIsAll(s: State)
    requires Line(s) != []
    ensures Due(s) == Line(s) <==> !Failed(Main(s).drain) && forall p :: p in Line(s) ==> CanSend(s, p)
  {
    AheadIsLongest(Line(s));
    if !Failed(Main(s).drain) && forall p :: p in Line(s) ==> CanSend(s, p) {
      assert CanSend(s, Line(s)[0]);
      var n := |Ahead(Line(s))|;
      assert n < |Line(s)| ==> Line(s)[n] in Line(s);
    }
  }

  lemma DueReceive(s: State, o: BoxId)
    requires Shape(s) && Enabled(s, DrainReceive(o))
    ensures var t := Apply(s, DrainReceive(o)); t.wire + Due(t) == s.wire + Due(s)
  {
    BusyIsMain(s, o);
    assert Line(Apply(s, DrainReceive(o))) == Line(s);
  }

  lemma DueSend(s: State, o: BoxId, outcome: Outcome)
    requires Shape(s) && Enabled(s, DrainSend(o, outcome))
    ensures var t := Apply(s, DrainSend(o, outcome)); t.wire + Due(t) == s.wire + Due(s)
  {
    BusyIsMain(s, o);
    match outcome {
      case Sent => DueSent(s);
      case WouldBlock =>
      case Broken => DueBroken(s);
    }
  }

  lemma DueSent(s: State)
    requires s.installed.Some? && s.installed.value in s.boxes && Enabled(s, DrainSend(s.installed.value, Sent))
    ensures var t := Apply(s, DrainSend(s.installed.value, Sent)); t.wire + Due(t) == s.wire + Due(s)
  {
    var t := Apply(s, DrainSend(s.installed.value, Sent));
    assert Line(s) == [Main(s).drain.parcel] + Main(s).queue && Line(t) == Main(s).queue;
    DueAdvances(s, t, Main(s).drain.parcel);
  }

  /** Sending the first of what can be sent takes it from what is ahead to the wire. */
  lemma AheadAdvances(wire: seq<Parcel>, p: Parcel, rest: seq<Parcel>)
    requires Sendable(p.message)
    ensures (wire + [p]) + Ahead(rest) == wire + Ahead([p] + rest)
  {
    AheadStep([p] + rest);
    assert ([p] + rest)[1..] == rest;
    assert (wire + [p]) + Ahead(rest) == wire + ([p] + Ahead(rest));
  }

  lemma DueAdvances(s: State, t: State, p: Parcel)
    requires Line(s) == [p] + Line(t) && t.wire == s.wire + [p] && Sendable(p.message) && s.peerOpen && t.peerOpen
    requires !Failed(Main(s).drain) && !Failed(Main(t).drain)
    ensures t.wire + Due(t) == s.wire + Due(s)
  {
    AheadAdvances(s.wire, p, Line(t));
  }

  lemma DueBroken(s: State)
    requires s.installed.Some? && s.installed.value in s.boxes && Enabled(s, DrainSend(s.installed.value, Broken))
    ensures var t := Apply(s, DrainSend(s.installed.value, Broken)); t.wire + Due(t) == s.wire + Due(s)
  {
    assert Line(s)[0] == Main(s).drain.parcel;
    AheadStep(Line(s));
  }

  lemma AheadStep(ps: seq<Parcel>)
    requires ps != []
    ensures Ahead(ps) == if Sendable(ps[0].message) then [ps[0]] + Ahead(ps[1..]) else []
  {
  }

  lemma DueRelease(s: State, o: BoxId)
    requires Shape(s) && Enabled(s, DrainRelease(o))
    ensures Apply(s, DrainRelease(o)).wire == s.wire && Due(Apply(s, DrainRelease(o))) == Due(s)
  {
    BusyIsMain(s, o);
    assert Line(Apply(s, DrainRelease(o))) == Line(s);
  }

  lemma DueStop(s: State, o: BoxId)
    requires Shape(s) && Enabled(s, DrainStop(o))
    ensures Apply(s, DrainStop(o)).wire == s.wire && Due(Apply(s, DrainStop(o))) == Due(s)
  {
    BusyIsMain(s, o);
  }

  lemma DueRest(s: State, e: Event)
    requires Enabled(s, e) && (e.DrainFinish? || e.PeerRead?)
    ensures Apply(s, e).wire == s.wire && Due(Apply(s, e)) == Due(s)
  {
    assert Line(Apply(s, e)) == Line(s);
  }

  /** What is due does not change, but for moving to the wire. */
  lemma DueStep(s: State, e: Event)
    requires Shape(s) && Background(e)
    ensures Step(s, e).wire + Due(Step(s, e)) == s.wire + Due(s)
  {
    if Enabled(s, e) {
      match e {
        case DrainReceive(o) => DueReceive(s, o);
        case DrainSend(o, outcome) => DueSend(s, o, outcome);
        case DrainRelease(o) => DueRelease(s, o);
        case DrainStop(o) => DueStop(s, o);
        case _ => DueRest(s, e);
      }
    }
  }

  /** The drain is over, well or badly. */
  predicate Ended(b: Box) {
    b.drain.Finished? || b.drain.Stopped?
  }

  predicate NoPeerClose(es: seq<Event>) {
    forall i :: 0 <= i < |es| ==> !es[i].PeerClose?
  }

  /** With every `Ref` gone, only the drains and the peer can move. */
  lemma OnlyBackgroundMoves(s: State, e: Event)
    requires Shape(s) && !s.held && Enabled(s, e) && !e.PeerClose?
    ensures Background(e)
  {
    if OfCall(e) {
      OneCallMoves(s, e);
    }
  }

  /** A drain that has failed or ended stays so. */
  lemma FateStays(s: State, e: Event)
    requires Enabled(s, e) && !ByCall(e)
    ensures Failed(Main(s).drain) ==> Failed(Main(Apply(s, e)).drain)
    ensures Ended(Main(s)) ==> Ended(Main(Apply(s, e)))
  {
    if !e.DropLastRef? && !e.PeerRead? && !e.PeerClose? {
      DrainFateStays(s, e);
    }
  }

  lemma DrainFateStays(s: State, e: Event)
    requires Enabled(s, e)
    requires e.DrainReceive? || e.DrainSend? || e.DrainRelease? || e.DrainStop? || e.DrainFinish?
    ensures Failed(Main(s).drain) ==> Failed(Main(Apply(s, e)).drain)
    ensures Ended(Main(s)) ==> Ended(Main(Apply(s, e)))
  {
  }

  /** What a schedule after the last `Ref` keeps: the wire grows by no more than what was due. */
  predicate WithinDue(s: State, t: State) {
    && t.wire + Due(t) <= s.wire + Due(s) && !t.held && (t.peerOpen ==> s.peerOpen)
    && (s.installed.Some? ==> t.installed == s.installed)
    && (Failed(Main(s).drain) ==> Failed(Main(t).drain)) && (Ended(Main(s)) ==> Ended(Main(t)))
  }

  lemma WithinDueStep(s: State, e: Event)
    requires Shape(s) && !s.held
    ensures WithinDue(s, Step(s, e))
    ensures !e.PeerClose? ==> Step(s, e).wire + Due(Step(s, e)) == s.wire + Due(s)
  {
    if Enabled(s, e) {
      LogsStep(s, e);
      if e.PeerClose? {
        FateStays(s, e);
        assert s.wire <= s.wire + Due(s);
      } else {
        OnlyBackgroundMoves(s, e);
        BackgroundKeeps(s, e);
        FateStays(s, e);
        DueStep(s, e);
      }
    }
  }

  lemma WithinDueTrans(s: State, t: State, u: State)
    requires WithinDue(s, t) && WithinDue(t, u)
    ensures WithinDue(s, u)
  {
  }

  lemma {:induction false} WithinDueAfter(s: State, es: seq<Event>)
    requires Inv(s) && !s.held
    ensures WithinDue(s, After(s, es)) && Inv(After(s, es))
    decreases |es|
  {
    if es != [] {
      WithinDueStep(s, es[0]);
      InvStep(s, es[0]);
      WithinDueAfter(Step(s, es[0]), es[1..]);
      WithinDueTrans(s, Step(s, es[0]), After(s, es));
    }
  }

  /** And while the peer stays it grows by no less. */
  lemma {:induction false} DueAfter(s: State, es: seq<Event>)
    requires Inv(s) && !s.held && NoPeerClose(es)
    ensures After(s, es).wire + Due(After(s, es)) == s.wire + Due(s)
    decreases |es|
  {
    if es != [] {
      WithinDueStep(s, es[0]);
      InvStep(s, es[0]);
      assert NoPeerClose(es[1..]);
      DueAfter(Step(s, es[0]), es[1..]);
    }
  }

  /** Without calls the work only falls. */
  lemma {:induction false} WorkFalls(s: State, es: seq<Event>)
    requires Inv(s) && !s.held
    ensures Work(Main(After(s, es))) + Effort(s, es) <= Work(Main(s))
    decreases |es|
  {
    if es != [] {
      WorkFallsStep(s, es[0]);
      InvStep(s, es[0]);
      WithinDueStep(s, es[0]);
      WorkFalls(Step(s, es[0]), es[1..]);
    }
  }

  lemma WorkFallsStep(s: State, e: Event)
    requires Shape(s) && Faults(s) && !s.held
    ensures Work(Main(Step(s, e))) + (if Advances(s, e) then 1 else 0) <= Work(Main(s))
  {
    if Enabled(s, e) && !e.PeerClose? {
      OnlyBackgroundMoves(s, e);
      WorkStep(s, e);
    }
  }

  /** With no work left, or the drain over, nothing more is due. */
  lemma NothingDue(s: State)
    requires Faults(s) && (Work(Main(s)) == 0 || Ended(Main(s)))
    ensures Due(s) == []
  {
    if !Failed(Main(s).drain) {
      assert Line(s) == [];
    }
  }

  lemma AllDueSent(s: State, t: State)
    requires Faults(t) && t.wire + Due(t) == s.wire + Due(s) && (Work(Main(t)) == 0 || Ended(Main(t)))
    ensures t.wire == s.wire + Due(s)
  {
    NothingDue(t);
    assert t.wire + [] == t.wire;
  }

  /** The drain has a step to take: one that advances it, or its last. */
  predicate CanStep(s: State) {
    && s.installed.Some?
    && (Advances(s, NextDrainEvent(s)) || Enabled(s, DrainFinish(s.installed.value))
        || Enabled(s, DrainStop(s.installed.value)))
  }

  lemma StepLeft(s: State)
    requires Shape(s) && !s.held && s.installed.Some? && !Ended(Main(s))
    ensures CanStep(s)
  {
    if Work(Main(s)) > 0 {
      WorkCanAdvance(s);
    }
  }

  /** After the last `Ref` is dropped, whatever the backlog holds and whatever happens next while the
      peer stays: what is ahead of the first oversized message moves onto the wire, in queue order,
      and nothing else does. All of it is there once the drain has taken as many steps as there was
      work, or is over; and until it is over it has a step to take, blocked or not. */
  lemma LastRefDropped(es1: seq<Event>, es2: seq<Event>)
    requires !After(INITIAL, es1).held && NoPeerClose(es2)
    ensures var s := After(INITIAL, es1); var t := After(s, es2);
      && t.wire + Due(t) == s.wire + Due(s)
      && Work(Main(t)) + Effort(s, es2) <= Work(Main(s))
      && (Effort(s, es2) == Work(Main(s)) || Ended(Main(t)) ==> t.wire == s.wire + Due(s))
      && (s.installed.Some? && !Ended(Main(t)) ==> CanStep(t))
  {
    var s := After(INITIAL, es1);
    var t := After(s, es2);
    Reachable(es1);
    WithinDueAfter(s, es2);
    DueAfter(s, es2);
    WorkFalls(s, es2);
    if Work(Main(t)) == 0 || Ended(Main(t)) {
      AllDueSent(s, t);
    }
    if s.installed.Some? && !Ended(Main(t)) {
      StepLeft(t);
    }
  }

  /** The drain takes a step it can take. */
  predicate DrainActs(s: State, e: Event) {
    && Enabled(s, e) && s.installed.Some?
    && (e.DrainReceive? || e.DrainSend? || e.DrainRelease? || e.DrainStop? || e.DrainFinish?)
    && e.box == s.installed.value
  }

  /** At step `i` of the schedule the peer has read everything, and the drain acts. */
  predicate CaughtUpAt(s: State, es: seq<Event>, i: nat) {
    i < |es| && After(s, es[..i]).read == |After(s, es[..i]).wire| && DrainActs(After(s, es[..i]), es[i])
  }

  /** A stretch of schedule in which the peer catches up and the drain is given a turn just then,
      whatever the kernel answers it and whatever else happens; or by the end of which the drain is
      over. */
  predicate FairRound(s: State, es: seq<Event>) {
    NoPeerClose(es) && (Ended(Main(After(s, es))) || exists i :: 0 <= i < |es| && CaughtUpAt(s, es, i))
  }

  predicate FairRounds(s: State, rounds: seq<seq<Event>>)
    decreases |rounds|
  {
    rounds == [] || (FairRound(s, rounds[0]) && FairRounds(After(s, rounds[0]), rounds[1..]))
  }

  function AfterRounds(s: State, rounds: seq<seq<Event>>): State
    decreases |rounds|
  {
    if rounds == [] then s else AfterRounds(After(s, rounds[0]), rounds[1..])
  }

  /** With everything read the kernel cannot make the drain wait: an act of the drain's advances, or
      is its last. */
  lemma ActsThenAdvances(s: State, e: Event)
    requires Shape(s) && DrainActs(s, e) && s.read == |s.wire|
    ensures Advances(s, e) || Ended(Main(Step(s, e)))
  {
  }

  lemma PartsOf(es: seq<Event>, i: nat)
    requires NoPeerClose(es) && i < |es|
    ensures es == es[..i] + ([es[i]] + es[i + 1..]) && NoPeerClose(es[..i]) && NoPeerClose(es[i + 1..])
  {
  }

  lemma SplitRound(s: State, es: seq<Event>) returns (before: seq<Event>, e: Event, rest: seq<Event>)
    requires FairRound(s, es) && !Ended(Main(After(s, es)))
    ensures es == before + ([e] + rest) && NoPeerClose(before) && NoPeerClose(rest)
    ensures var u := After(s, before); DrainActs(u, e) && u.read == |u.wire|
  {
    var i :| 0 <= i < |es| && CaughtUpAt(s, es, i);
    before, e, rest := es[..i], es[i], es[i + 1..];
    PartsOf(es, i);
  }

  /** So a fair round lowers the work left, or ends the drain. */
  lemma RoundAdvances(s: State, es: seq<Event>)
    requires Inv(s) && !s.held && FairRound(s, es)
    ensures Ended(Main(After(s, es))) || Work(Main(After(s, es))) < Work(Main(s))
  {
    if !Ended(Main(After(s, es))) {
      var before, e, rest := SplitRound(s, es);
      RoundInParts(s, before, e, rest);
    }
  }

  lemma RoundInParts(s: State, before: seq<Event>, e: Event, rest: seq<Event>)
    requires Inv(s) && !s.held
    requires var u := After(s, before); DrainActs(u, e) && u.read == |u.wire|
    ensures var t := After(s, before + ([e] + rest)); Ended(Main(t)) || Work(Main(t)) < Work(Main(s))
  {
    AfterConcat(s, before, [e] + rest);
    WithinDueAfter(s, before);
    WorkFalls(s, before);
    ActThenRest(After(s, before), e, rest);
  }

  lemma ActThenRest(s: State, e: Event, rest: seq<Event>)
    requires Inv(s) && !s.held && DrainActs(s, e) && s.read == |s.wire|
    ensures var t := After(s, [e] + rest); Ended(Main(t)) || Work(Main(t)) < Work(Main(s))
  {
    AfterCons(s, e, rest);
    ActsThenAdvances(s, e);
    WorkFallsStep(s, e);
    InvStep(s, e);
    WithinDueStep(s, e);
    WorkFalls(Step(s, e), rest);
    WithinDueAfter(Step(s, e), rest);
  }

  /** The drain is over, and by then all that was due is on the wire. */
  predicate DueDelivered(s: State, t: State) {
    Ended(Main(t)) && t.wire == s.wire + Due(s)
  }

  lemma {:induction false} RoundsKeep(s: State, rounds: seq<seq<Event>>)
    requires Inv(s) && !s.held && FairRounds(s, rounds)
    ensures var t := AfterRounds(s, rounds);
      Inv(t) && t.wire + Due(t) == s.wire + Due(s) && (Ended(Main(s)) ==> Ended(Main(t)))
    decreases |rounds|
  {
    if rounds != [] {
      WithinDueAfter(s, rounds[0]);
      DueAfter(s, rounds[0]);
      RoundsKeep(After(s, rounds[0]), rounds[1..]);
    }
  }

  lemma {:induction false} RoundsEnd(s: State, rounds: seq<seq<Event>>)
    requires Inv(s) && !s.held && FairRounds(s, rounds) && |rounds| > Work(Main(s))
    ensures Ended(Main(AfterRounds(s, rounds)))
    decreases |rounds|
  {
    var t := After(s, rounds[0]);
    WithinDueAfter(s, rounds[0]);
    RoundAdvances(s, rounds[0]);
    if Ended(Main(t)) {
      RoundsKeep(t, rounds[1..]);
    } else {
      RoundsEnd(t, rounds[1..]);
    }
  }

  /** After the last `Ref` is dropped, whatever the backlog holds: if the peer stays and keeps reading
      and the drain keeps being run, everything ahead of the first oversized message reaches the
      wire, in queue order, nothing else does, and the drain is then over, after at most one fair
      round more than there was work. */
  lemma BacklogIsDelivered(es: seq<Event>, rounds: seq<seq<Event>>)
    requires !After(INITIAL, es).held && FairRounds(After(INITIAL, es), rounds)
    requires |rounds| > Work(Main(After(INITIAL, es)))
    ensures DueDelivered(After(INITIAL, es), AfterRounds(After(INITIAL, es), rounds))
  {
    var s := After(INITIAL, es);
    Reachable(es);
    RoundsKeep(s, rounds);
    RoundsEnd(s, rounds);
    AllDueSent(s, AfterRounds(s, rounds));
  }

  /** The drain ends well, and by then the whole backlog is on the wire. */
  predicate DrainedOut(s: State, t: State) {
    Main(t).drain.Finished? && t.wire == s.wire + Line(s)
  }

  /** The drain has not failed, and nothing in line will make it. */
  predicate AllCanBeSent(s: State) {
    !Failed(Main(s).drain) && forall p :: p in Line(s) ==> CanSend(s, p)
  }

  /** There is a schedule of at most one step more than there is work after which the drain is over and
      all that was due is on the wire. */
  lemma DrainsOut(s: State) returns (es: seq<Event>)
    requires Inv(s) && !s.held && s.installed.Some?
    ensures AllBackground(es) && |es| <= Work(Main(s)) + 1 && DueDelivered(s, After(s, es))
  {
    var working := WorksOff(s);
    var last := Ends(After(s, working));
    es := working + last;
    Glued(s, working, last);
  }

  lemma Glued(s: State, working: seq<Event>, last: seq<Event>)
    requires After(s, working).wire == s.wire + Due(s) && After(After(s, working), last).wire == After(s, working).wire
    requires Ended(Main(After(After(s, working), last))) && AllBackground(working) && AllBackground(last)
    ensures DueDelivered(s, After(s, working + last)) && AllBackground(working + last)
  {
    AfterConcat(s, working, last);
  }

  lemma WorksOff(s: State) returns (es: seq<Event>)
    requires Inv(s) && !s.held && s.installed.Some?
    ensures AllBackground(es) && |es| <= Work(Main(s))
    ensures var t := After(s, es);
      Inv(t) && !t.held && t.installed.Some? && Work(Main(t)) == 0 && t.wire == s.wire + Due(s)
  {
    es := RunOut(s);
    WorkFalls(s, es);
    assert NoPeerClose(es);
    WithinDueAfter(s, es);
    DueAfter(s, es);
    AllDueSent(s, After(s, es));
  }

  lemma Ends(s: State) returns (es: seq<Event>)
    requires Inv(s) && !s.held && s.installed.Some? && Work(Main(s)) == 0
    ensures AllBackground(es) && |es| <= 1 && Ended(Main(After(s, es))) && After(s, es).wire == s.wire
  {
    es := [];
    if !Ended(Main(s)) {
      var o := s.installed.value;
      var e := if Main(s).drain.Stopping? then DrainStop(o) else DrainFinish(o);
      LastStep(s, e);
      AfterCons(s, e, []);
      es := [e] + [];
    }
  }

  lemma LastStep(s: State, e: Event)
    requires Shape(s) && !s.held && s.installed.Some? && Work(Main(s)) == 0 && !Ended(Main(s))
    requires e == if Main(s).drain.Stopping? then DrainStop(s.installed.value) else DrainFinish(s.installed.value)
    ensures Ended(Main(Step(s, e))) && Step(s, e).wire == s.wire
  {
  }

  lemma SentMeansAllCan(s: State, t: State)
    requires WithinDue(s, t) && DrainedOut(s, t)
    ensures AllCanBeSent(s)
  {
    AheadIsLongest(Line(s));
    assert |t.wire| <= |s.wire + Due(s)|;
    if Line(s) != [] {
      DueIsAll(s);
    }
  }

  lemma AllCanMeansSent(s: State) returns (es: seq<Event>)
    requires Inv(s) && !s.held && s.installed.Some? && AllCanBeSent(s)
    ensures DrainedOut(s, After(s, es))
  {
    es := DrainsOut(s);
    NeverFails(s, es);
    AllIsDue(s);
  }

  lemma AllIsDue(s: State)
    requires AllCanBeSent(s)
    ensures Due(s) == Line(s)
  {
    if Line(s) != [] {
      DueIsAll(s);
    }
  }

  lemma NeverFailsStep(s: State, e: Event)
    requires Shape(s) && AllCanBeSent(s) && Background(e)
    ensures AllCanBeSent(Step(s, e))
  {
    if Enabled(s, e) {
      match e {
        case DrainReceive(o) => ReceiveNeverFails(s, o);
        case DrainSend(o, outcome) => SendNeverFails(s, o, outcome);
        case DrainRelease(o) => ReleaseNeverFails(s, o);
        case _ => RestNeverFails(s, e);
      }
    }
  }

  lemma RestNeverFails(s: State, e: Event)
    requires Shape(s) && AllCanBeSent(s) && Enabled(s, e) && (e.DrainStop? || e.DrainFinish? || e.PeerRead?)
    ensures AllCanBeSent(Apply(s, e))
  {
    if e.DrainStop? {
      BusyIsMain(s, e.box);
    } else {
      assert Line(Apply(s, e)) == Line(s);
    }
  }

  lemma ReceiveNeverFails(s: State, o: BoxId)
    requires Shape(s) && AllCanBeSent(s) && Enabled(s, DrainReceive(o))
    ensures AllCanBeSent(Apply(s, DrainReceive(o)))
  {
    BusyIsMain(s, o);
    assert Line(Apply(s, DrainReceive(o))) == Line(s);
  }

  lemma SendNeverFails(s: State, o: BoxId, outcome: Outcome)
    requires Shape(s) && AllCanBeSent(s) && Enabled(s, DrainSend(o, outcome))
    ensures AllCanBeSent(Apply(s, DrainSend(o, outcome)))
  {
    BusyIsMain(s, o);
    var t := Apply(s, DrainSend(o, outcome));
    assert Line(s) == [Main(s).drain.parcel] + Main(s).queue;
    assert CanSend(s, Line(s)[0]);
    assert outcome.Sent? || outcome.WouldBlock?;
    forall p | p in Line(t)
      ensures p in Line(s)
    {
      assert outcome.Sent? ==> Line(t) == Main(s).queue;
    }
  }

  lemma ReleaseNeverFails(s: State, o: BoxId)
    requires Shape(s) && AllCanBeSent(s) && Enabled(s, DrainRelease(o))
    ensures AllCanBeSent(Apply(s, DrainRelease(o)))
  {
    BusyIsMain(s, o);
    assert Line(Apply(s, DrainRelease(o))) == Line(s);
  }

  lemma {:induction false} NeverFails(s: State, es: seq<Event>)
    requires Inv(s) && AllCanBeSent(s) && AllBackground(es)
    ensures !Failed(Main(After(s, es)).drain)
    decreases |es|
  {
    if es != [] {
      NeverFailsStep(s, es[0]);
      InvStep(s, es[0]);
      assert AllBackground(es[1..]);
      NeverFails(Step(s, es[0]), es[1..]);
    }
  }

  predicate DrainsBy(s: State, es: seq<Event>) {
    DrainedOut(s, After(s, es))
  }

  /** After the last `Ref` is dropped, the whole backlog can reach the wire and the drain end well, in
      any schedule at all, exactly if the drain has not failed and every message in line can be sent. */
  lemma DrainsOutExactly(es: seq<Event>)
    requires !After(INITIAL, es).held && After(INITIAL, es).installed.Some?
    ensures var s := After(INITIAL, es); (exists more :: DrainsBy(s, more)) <==> AllCanBeSent(s)
  {
    var s := After(INITIAL, es);
    Reachable(es);
    if AllCanBeSent(s) {
      var more := AllCanMeansSent(s);
      assert DrainsBy(s, more);
    } else {
      forall more
        ensures !DrainsBy(s, more)
      {
        WithinDueAfter(s, more);
        if DrainsBy(s, more) {
          SentMeansAllCan(s, After(s, more));
        }
      }
    }
  }
}
