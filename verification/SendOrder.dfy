/** What the two-tier send promises about order: real-time FIFO across every interleaving of
    fast path and queue, its exact limit, and prefix order for each sequential sender. */
module SendOrder {
  import opened Wire
  import opened SendModel
  import opened SendInvariant

  predicate LaterLogs(s: State, t: State) {
    && s.accepted <= t.accepted && s.wire <= t.wire && s.failed <= t.failed && s.stranded <= t.stranded
    && (t.peerOpen ==> s.peerOpen) && (t.held ==> s.held)
    && (s.installed.Some? ==> t.installed == s.installed)
  }

  predicate LaterCalls(s: State, t: State) {
    && (forall c :: c in s.calls ==>
          && c in t.calls
          && t.calls[c] == s.calls[c].(pc := t.calls[c].pc)
          && (Done(s.calls[c].pc) ==> t.calls[c].pc == s.calls[c].pc))
    && (forall c :: c in t.calls && c !in s.calls ==> |s.accepted| <= t.calls[c].seen)
  }

  /** What no step undoes. */
  predicate Later(s: State, t: State) {
    LaterLogs(s, t) && LaterCalls(s, t)
  }

  lemma LookingLogs(s: State, e: Event)
    requires Enabled(s, e)
    requires e.Begin? || e.LookForOutbox? || e.LoadPending? || e.InlineSend? || e.GetOutbox? || e.Build? || e.Install?
    ensures LaterLogs(s, ApplyCall(s, e)) && s.boxes.Keys <= ApplyCall(s, e).boxes.Keys
  {
  }

  lemma ChannelLogs(s: State, e: Event)
    requires Enabled(s, e)
    requires e.Claim? || e.Push? || e.Withdraw? || e.Grant? || e.Commit? || e.PermitSend? || e.ReserveClosed? || e.Cancel?
    ensures LaterLogs(s, ApplyCall(s, e)) && s.boxes.Keys <= ApplyCall(s, e).boxes.Keys
  {
  }

  lemma CallLogs(s: State, e: Event)
    requires Enabled(s, e) && ByCall(e)
    ensures LaterLogs(s, Apply(s, e)) && s.boxes.Keys <= Apply(s, e).boxes.Keys
  {
    assert Apply(s, e) == ApplyCall(s, e);
    match e {
      case Begin(_, _, _) | LookForOutbox(_) | LoadPending(_) | InlineSend(_, _) | GetOutbox(_) | Build(_, _, _) | Install(_) =>
        LookingLogs(s, e);
      case _ => ChannelLogs(s, e);
    }
  }

  lemma DrainLogs(s: State, e: Event)
    requires Enabled(s, e) && (e.DrainReceive? || e.DrainSend? || e.DrainRelease? || e.DrainStop? || e.DrainFinish?)
    ensures LaterLogs(s, Apply(s, e)) && s.boxes.Keys <= Apply(s, e).boxes.Keys && Apply(s, e).calls == s.calls
  {
  }

  lemma PeerLogs(s: State, e: Event)
    requires Enabled(s, e) && (e.DropLastRef? || e.PeerRead? || e.PeerClose?)
    ensures LaterLogs(s, Apply(s, e)) && s.boxes.Keys <= Apply(s, e).boxes.Keys && Apply(s, e).calls == s.calls
  {
  }

  lemma OtherLogs(s: State, e: Event)
    requires Enabled(s, e) && !ByCall(e)
    ensures LaterLogs(s, Apply(s, e)) && s.boxes.Keys <= Apply(s, e).boxes.Keys && Apply(s, e).calls == s.calls
  {
    if e.DropLastRef? || e.PeerRead? || e.PeerClose? {
      PeerLogs(s, e);
    } else {
      DrainLogs(s, e);
    }
  }

  lemma LogsStep(s: State, e: Event)
    ensures LaterLogs(s, Step(s, e)) && s.boxes.Keys <= Step(s, e).boxes.Keys
  {
    if Enabled(s, e) {
      if ByCall(e) {
        CallLogs(s, e);
      } else {
        OtherLogs(s, e);
      }
    }
  }

  /** Is this a step of a call already under way? */
  predicate OfCall(e: Event) {
    ByCall(e) && !e.Begin?
  }

  /** Where an enabled step takes its call: the control flow of `send` and `try_send`. */
  function NextPc(s: State, e: Event): Pc
    requires Enabled(s, e) && OfCall(e)
  {
    var k := s.calls[e.call];
    match e
    case LookForOutbox(_) => if s.installed.Some? then Checking(s.installed.value) else AfterCheck(k.message, false)
    case LoadPending(_) => AfterCheck(k.message, s.boxes[k.pc.box].pending != 0)
    case InlineSend(_, outcome) =>
      if outcome.Sent? then Accepted else if outcome.WouldBlock? then Queueing(false) else Returned(Closed)
    case GetOutbox(_) =>
      if s.installed.Some? then WithOutbox(s.installed.value, k.pc.parking) else Building(k.pc.parking)
    case Build(_, o, built) => if built then Racing(o, k.pc.parking) else Returned(Closed)
    case Install(_) => WithOutbox(if s.installed.Some? then s.installed.value else k.pc.box, k.pc.parking)
    case Claim(_) => Claimed(k.pc.box)
    case Push(_) =>
      var b := s.boxes[k.pc.box];
      if !ReceiverOpen(b) then Refused(k.pc.box, Closed) else if !HasRoom(b) then Refused(k.pc.box, Full) else Accepted
    case Withdraw(_) => if k.pc.error.Full? && k.waits then Queueing(true) else Returned(k.pc.error)
    case Grant(_) => Granted(k.pc.box)
    case Commit(_) => Committed(k.pc.box)
    case PermitSend(_) => Accepted
    case ReserveClosed(_) => Returned(Closed)
    case Cancel(_) => Cancelled
  }

  lemma OneCallMoves(s: State, e: Event)
    requires Enabled(s, e) && OfCall(e)
    ensures e.call in s.calls && !Done(s.calls[e.call].pc)
    ensures Apply(s, e).calls == s.calls[e.call := s.calls[e.call].(pc := NextPc(s, e))]
  {
  }

  lemma CallsStep(s: State, e: Event)
    ensures LaterCalls(s, Step(s, e))
    ensures forall c :: c in Step(s, e).calls && c !in s.calls ==> e.Begin? && e.call == c
  {
    if Enabled(s, e) {
      if OfCall(e) {
        OneCallMoves(s, e);
      } else if !e.Begin? {
        OtherLogs(s, e);
      }
    }
  }

  /** Only a call's own step moves it. */
  lemma OwnStep(s: State, e: Event, c: CallId)
    requires Enabled(s, e) && c in s.calls && c in Apply(s, e).calls && Apply(s, e).calls[c].pc != s.calls[c].pc
    ensures OfCall(e) && e.call == c && Apply(s, e).calls[c].pc == NextPc(s, e)
  {
    if OfCall(e) {
      OneCallMoves(s, e);
    } else if !e.Begin? {
      OtherLogs(s, e);
    }
  }

  lemma LaterStep(s: State, e: Event)
    ensures Later(s, Step(s, e))
  {
    LogsStep(s, e);
    CallsStep(s, e);
  }

  lemma LaterTrans(s: State, t: State, u: State)
    requires Later(s, t) && Later(t, u)
    ensures Later(s, u)
  {
  }

  lemma {:induction false} LaterAfter(s: State, es: seq<Event>)
    ensures Later(s, After(s, es))
    decreases |es|
  {
    if es != [] {
      LaterStep(s, es[0]);
      LaterAfter(Step(s, es[0]), es[1..]);
      LaterTrans(s, Step(s, es[0]), After(s, es));
    }
  }

  /** A later call has seen everything accepted before it began. */
  lemma LaterSees(s: State, t: State, c: CallId, p: Parcel)
    requires Later(s, t) && p in s.accepted
    requires c !in s.calls && c in t.calls && t.calls[c].seen <= |t.accepted|
    ensures p in SeenBy(t, c)
  {
  }

  lemma FifoBetween(s: State, t: State, c1: CallId, c2: CallId, i: nat)
    requires Ledger(s) && Inv(t) && Later(s, t)
    requires c1 in s.calls && s.calls[c1].pc.Accepted? && Sendable(s.calls[c1].message)
    requires c2 !in s.calls && i < |t.wire| && t.wire[i].call == c2
    ensures Parcel(c1, s.calls[c1].message) in t.wire[..i]
  {
    PlacedIsAccepted(t, t.wire[i]);
    assert CallShape(t, t.calls[c2]);
    var p := Parcel(c1, s.calls[c1].message);
    LaterSees(s, t, c2, p);
    assert p in t.wire[..i] || Oversized(t, p);
  }

  /** A message for which `Ok` was returned before another call began is ahead of that call's
      message on the wire, whichever paths the two took. */
  lemma RealTimeFifo(es1: seq<Event>, es2: seq<Event>, c1: CallId, c2: CallId, i: nat)
    requires var s1 := After(INITIAL, es1); var s2 := After(s1, es2);
      && c1 in s1.calls && s1.calls[c1].pc.Accepted? && Sendable(s1.calls[c1].message)
      && c2 !in s1.calls
      && i < |s2.wire| && s2.wire[i].call == c2
    ensures var s1 := After(INITIAL, es1); var s2 := After(s1, es2);
      Parcel(c1, s1.calls[c1].message) in s2.wire[..i]
  {
    var s1 := After(INITIAL, es1);
    Reachable(es1);
    InvAfter(s1, es2);
    LaterAfter(s1, es2);
    FifoBetween(s1, After(s1, es2), c1, c2, i);
  }

  /** A run in which a message accepted before call `c2` began is overtaken by it. */
  predicate Overtaken(m: Message, es1: seq<Event>, es2: seq<Event>, c1: CallId, c2: CallId, i: nat) {
    var s1 := After(INITIAL, es1);
    var s2 := After(s1, es2);
    && c1 in s1.calls && s1.calls[c1] == s1.calls[c1].(message := m, pc := Accepted)
    && c2 !in s1.calls
    && i < |s2.wire| && s2.wire[i].call == c2
    && Parcel(c1, m) !in s2.wire[..i]
  }

  /** A call with message `m` alone, at `pc`, before anything was accepted. */
  function Alone(m: Message, pc: Pc): State {
    INITIAL.(calls := map[0 := Call(m, false, 0, pc)])
  }

  /** The same with the call's own outbox installed. */
  function Boxed(m: Message, pc: Pc, b: Box): State {
    Alone(m, pc).(boxes := map[0 := b], installed := Some(0))
  }

  /** The message was accepted into the queue. */
  function Queued(m: Message): State {
    Boxed(m, Accepted, Box([Parcel(0, m)], 0, 1, Receiving, true)).(accepted := [Parcel(0, m)])
  }

  /** The drain took it, could not send it, and released its claim. */
  function Failing(m: Message, pending: int, drain: Drain): State {
    Boxed(m, Accepted, Box([], 0, pending, drain, true)).(accepted := [Parcel(0, m)], failed := [Parcel(0, m)])
  }

  function QueueFirst(m: Message): seq<Event> {
    [Begin(0, m, false)] + ([LookForOutbox(0)] + ([GetOutbox(0)] + ([Build(0, 0, true)]
    + ([Install(0)] + ([Claim(0)] + ([Push(0)] + []))))))
  }

  lemma BuildFirstSteps(m: Message)
    requires FitsBuffer(m) && !Sendable(m)
    ensures Step(INITIAL, Begin(0, m, false)) == Alone(m, Entered)
    ensures Step(Alone(m, Entered), LookForOutbox(0)) == Alone(m, Queueing(false))
    ensures Step(Alone(m, Queueing(false)), GetOutbox(0)) == Alone(m, Building(false))
  {
  }

  lemma InstallFirstSteps(m: Message)
    ensures Step(Alone(m, Building(false)), Build(0, 0, true))
         == Alone(m, Racing(0, false)).(boxes := map[0 := NEW_BOX])
    ensures Step(Alone(m, Racing(0, false)).(boxes := map[0 := NEW_BOX]), Install(0)) == Boxed(m, Pushing(0), NEW_BOX)
  {
  }

  lemma PushFirstSteps(m: Message)
    ensures Step(Boxed(m, Pushing(0), NEW_BOX), Claim(0)) == Boxed(m, Claimed(0), Box([], 0, 1, Receiving, true))
    ensures Step(Boxed(m, Claimed(0), Box([], 0, 1, Receiving, true)), Push(0)) == Queued(m)
  {
    assert [] + [Parcel(0, m)] == [Parcel(0, m)];
  }

  lemma QueueFirstRun(m: Message)
    requires FitsBuffer(m) && !Sendable(m)
    ensures After(INITIAL, QueueFirst(m)) == Queued(m)
  {
    BuildFirstSteps(m);
    InstallFirstSteps(m);
    PushFirstSteps(m);
    var e7 := [Push(0)] + [];
    var e6 := [Claim(0)] + e7;
    var e5 := [Install(0)] + e6;
    var e4 := [Build(0, 0, true)] + e5;
    var e3 := [GetOutbox(0)] + e4;
    var e2 := [LookForOutbox(0)] + e3;
    AfterCons(INITIAL, Begin(0, m, false), e2);
    AfterCons(Alone(m, Entered), LookForOutbox(0), e3);
    AfterCons(Alone(m, Queueing(false)), GetOutbox(0), e4);
    AfterCons(Alone(m, Building(false)), Build(0, 0, true), e5);
    AfterCons(Alone(m, Racing(0, false)).(boxes := map[0 := NEW_BOX]), Install(0), e6);
    AfterCons(Boxed(m, Pushing(0), NEW_BOX), Claim(0), e7);
    AfterCons(Boxed(m, Claimed(0), Box([], 0, 1, Receiving, true)), Push(0), []);
  }

  /** The drain takes the message, its send fails, and the claim is released. */
  function Fault(): seq<Event> {
    [DrainReceive(0)] + ([DrainSend(0, Broken)] + ([DrainRelease(0)] + []))
  }

  function Taken(m: Message): State {
    Boxed(m, Accepted, Box([], 0, 1, Holding(Parcel(0, m)), true)).(accepted := [Parcel(0, m)])
  }

  lemma TakeStep(m: Message)
    ensures Step(Queued(m), DrainReceive(0)) == Taken(m)
  {
    assert [Parcel(0, m)][1..] == [];
  }

  lemma FaultSteps(m: Message)
    requires !Sendable(m)
    ensures Step(Taken(m), DrainSend(0, Broken)) == Failing(m, 1, Faulted)
    ensures Step(Failing(m, 1, Faulted), DrainRelease(0)) == Failing(m, 0, Stopping)
  {
    assert [] + [Parcel(0, m)] == [Parcel(0, m)];
  }

  lemma FaultRun(m: Message)
    requires !Sendable(m)
    ensures After(Queued(m), Fault()) == Failing(m, 0, Stopping)
  {
    TakeStep(m);
    FaultSteps(m);
    var e3 := [DrainRelease(0)] + [];
    var e2 := [DrainSend(0, Broken)] + e3;
    AfterCons(Queued(m), DrainReceive(0), e2);
    AfterCons(Taken(m), DrainSend(0, Broken), e3);
    AfterCons(Failing(m, 1, Faulted), DrainRelease(0), []);
  }

  const SMALL := Message([], [])

  /** The next call finds `pending` at zero and sends inline. */
  function Inline(): seq<Event> {
    [Begin(1, SMALL, false)] + ([LookForOutbox(1)] + ([LoadPending(1)] + ([InlineSend(1, Sent)] + [])))
  }

  function Second(m: Message, pc: Pc): State {
    var s := Failing(m, 0, Stopping);
    s.(calls := s.calls[1 := Call(SMALL, false, 1, pc)])
  }

  lemma InlineRun(m: Message)
    ensures After(Failing(m, 0, Stopping), Inline()).wire == [Parcel(1, SMALL)]
  {
  }

  /** `m` does not fit in one control message, so it is queued and its send fails; the next call
      reaches the wire without it. */
  lemma OversizedIsOvertaken(m: Message)
    requires FitsBuffer(m) && !Sendable(m)
    ensures Overtaken(m, QueueFirst(m), Fault() + Inline(), 0, 1, 0)
  {
    QueueFirstRun(m);
    FaultRun(m);
    InlineRun(m);
    AfterConcat(Queued(m), Fault(), Inline());
  }

  /** Exactly the messages with more descriptors than one control message carries can be overtaken
      after `Ok` was returned for them. */
  lemma FifoExactly(m: Message)
    requires FitsBuffer(m)
    ensures (exists es1, es2, c1, c2, i :: Overtaken(m, es1, es2, c1, c2, i)) <==> !Sendable(m)
  {
    if Sendable(m) {
      forall es1, es2, c1, c2, i | Overtaken(m, es1, es2, c1, c2, i)
        ensures false
      {
        RealTimeFifo(es1, es2, c1, c2, i);
      }
    } else {
      OversizedIsOvertaken(m);
    }
  }
}
