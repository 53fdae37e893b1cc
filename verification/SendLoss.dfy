/** When a message the caller was told was accepted never reaches a peer that is still there. */
module SendLoss {
  import opened Wire
  import opened SendModel
  import opened SendInvariant
  import opened SendOrder
  import opened SenderOrder
  import opened SendFates

  /** Accepted, and neither on the wire nor on its way there. */
  predicate Missing(s: State, c: CallId) {
    && c in s.calls && s.calls[c].pc.Accepted?
    && Parcel(c, s.calls[c].message) !in s.wire && Parcel(c, s.calls[c].message) !in Line(s)
  }

  /** Something oversized was accepted, and the drain could not send it. */
  predicate OversizedFailed(s: State) {
    exists p :: p in s.failed && !Sendable(p.message)
  }

  /** While the peer is open, a correctly sized message is lost exactly if it was left behind by a
      drain that had stopped, and a drain stops only over an oversized message. */
  lemma LostExactly(es: seq<Event>, c: CallId)
    requires var s := After(INITIAL, es);
      s.peerOpen && c in s.calls && s.calls[c].pc.Accepted? && Sendable(s.calls[c].message)
    ensures var s := After(INITIAL, es);
      && (Missing(s, c) <==> Parcel(c, s.calls[c].message) in s.stranded)
      && (Missing(s, c) ==> Main(s).drain.Stopped? && OversizedFailed(s))
  {
    var s := After(INITIAL, es);
    Reachable(es);
    Conservation(es, c);
    MissingIsStranded(s, Parcel(c, s.calls[c].message));
    if s.stranded != [] {
      LeftByOversized(s);
    }
  }

  lemma MissingIsStranded(s: State, p: Parcel)
    requires Faults(s) && s.peerOpen && Sendable(p.message) && Places(s)[p] == 1
    ensures p !in s.wire && p !in Line(s) <==> p in s.stranded
  {
    assert multiset(Line(s)) == multiset(HeldBy(Main(s).drain)) + multiset(Main(s).queue);
    assert p in Line(s) <==> p in multiset(Line(s));
    assert p !in s.failed;
  }

  lemma LeftByOversized(s: State)
    requires Faults(s) && s.peerOpen && s.stranded != []
    ensures Main(s).drain.Stopped? && OversizedFailed(s)
  {
    assert s.failed[0] in s.failed;
  }

  // ---- A schedule that loses a message ----

  /** Call 0's oversized message is queued; call 1, with message `v`, is at `pc`. */
  function Following(m: Message, v: Message, pc: Pc, pending: int): State {
    var s := Boxed(m, Accepted, Box([Parcel(0, m)], 0, pending, Receiving, true));
    s.(calls := s.calls[1 := Call(v, false, 1, pc)], accepted := [Parcel(0, m)])
  }

  /** Both were accepted. */
  function Both(m: Message, v: Message, b: Box, failed: seq<Parcel>, stranded: seq<Parcel>): State {
    Following(m, v, Accepted, 0).(boxes := map[0 := b], accepted := [Parcel(0, m), Parcel(1, v)],
                                  failed := failed, stranded := stranded)
  }

  function QueueBehind(v: Message): seq<Event> {
    [Begin(1, v, false)] + ([LookForOutbox(1)] + ([LoadPending(1)] + ([GetOutbox(1)] + ([Claim(1)] + ([Push(1)] + [])))))
  }

  lemma FollowSteps(m: Message, v: Message)
    requires FitsBuffer(v)
    ensures Step(Queued(m), Begin(1, v, false)) == Following(m, v, Entered, 1)
    ensures Step(Following(m, v, Entered, 1), LookForOutbox(1)) == Following(m, v, Checking(0), 1)
    ensures Step(Following(m, v, Checking(0), 1), LoadPending(1)) == Following(m, v, Queueing(false), 1)
  {
  }

  lemma ClaimBehindSteps(m: Message, v: Message)
    ensures Step(Following(m, v, Queueing(false), 1), GetOutbox(1)) == Following(m, v, Pushing(0), 1)
    ensures Step(Following(m, v, Pushing(0), 1), Claim(1)) == Following(m, v, Claimed(0), 2)
  {
  }

  lemma PushBehindStep(m: Message, v: Message)
    ensures Step(Following(m, v, Claimed(0), 2), Push(1))
         == Both(m, v, Box([Parcel(0, m), Parcel(1, v)], 0, 2, Receiving, true), [], [])
  {
    assert [Parcel(0, m)] + [Parcel(1, v)] == [Parcel(0, m), Parcel(1, v)];
  }

  lemma QueueBehindRun(m: Message, v: Message)
    requires FitsBuffer(v)
    ensures After(Queued(m), QueueBehind(v)) == Both(m, v, Box([Parcel(0, m), Parcel(1, v)], 0, 2, Receiving, true), [], [])
  {
    FollowSteps(m, v);
    ClaimBehindSteps(m, v);
    PushBehindStep(m, v);
    var e6 := [Push(1)] + [];
    var e5 := [Claim(1)] + e6;
    var e4 := [GetOutbox(1)] + e5;
    var e3 := [LoadPending(1)] + e4;
    var e2 := [LookForOutbox(1)] + e3;
    AfterCons(Queued(m), Begin(1, v, false), e2);
    AfterCons(Following(m, v, Entered, 1), LookForOutbox(1), e3);
    AfterCons(Following(m, v, Checking(0), 1), LoadPending(1), e4);
    AfterCons(Following(m, v, Queueing(false), 1), GetOutbox(1), e5);
    AfterCons(Following(m, v, Pushing(0), 1), Claim(1), e6);
    AfterCons(Following(m, v, Claimed(0), 2), Push(1), []);
  }

  /** The drain takes the oversized message, cannot send it, and stops. */
  function FaultAndStop(): seq<Event> {
    [DrainReceive(0)] + ([DrainSend(0, Broken)] + ([DrainRelease(0)] + ([DrainStop(0)] + [])))
  }

  lemma TakeOversizedStep(m: Message, v: Message)
    ensures Step(Both(m, v, Box([Parcel(0, m), Parcel(1, v)], 0, 2, Receiving, true), [], []), DrainReceive(0))
         == Both(m, v, Box([Parcel(1, v)], 0, 2, Holding(Parcel(0, m)), true), [], [])
  {
    assert [Parcel(0, m), Parcel(1, v)][1..] == [Parcel(1, v)];
  }

  lemma FaultOversizedSteps(m: Message, v: Message)
    requires !Sendable(m)
    ensures Step(Both(m, v, Box([Parcel(1, v)], 0, 2, Holding(Parcel(0, m)), true), [], []), DrainSend(0, Broken))
         == Both(m, v, Box([Parcel(1, v)], 0, 2, Faulted, true), [Parcel(0, m)], [])
    ensures Step(Both(m, v, Box([Parcel(1, v)], 0, 2, Faulted, true), [Parcel(0, m)], []), DrainRelease(0))
         == Both(m, v, Box([Parcel(1, v)], 0, 1, Stopping, true), [Parcel(0, m)], [])
  {
    assert [] + [Parcel(0, m)] == [Parcel(0, m)];
  }

  lemma StrandStep(m: Message, v: Message)
    ensures Step(Both(m, v, Box([Parcel(1, v)], 0, 1, Stopping, true), [Parcel(0, m)], []), DrainStop(0))
         == Both(m, v, Box([], 0, 1, Stopped, true), [Parcel(0, m)], [Parcel(1, v)])
  {
    assert [] + [Parcel(1, v)] == [Parcel(1, v)];
  }

  lemma FaultAndStopRun(m: Message, v: Message)
    requires !Sendable(m)
    ensures After(Both(m, v, Box([Parcel(0, m), Parcel(1, v)], 0, 2, Receiving, true), [], []), FaultAndStop())
         == Both(m, v, Box([], 0, 1, Stopped, true), [Parcel(0, m)], [Parcel(1, v)])
  {
    TakeOversizedStep(m, v);
    FaultOversizedSteps(m, v);
    StrandStep(m, v);
    var e4 := [DrainStop(0)] + [];
    var e3 := [DrainRelease(0)] + e4;
    var e2 := [DrainSend(0, Broken)] + e3;
    AfterCons(Both(m, v, Box([Parcel(0, m), Parcel(1, v)], 0, 2, Receiving, true), [], []), DrainReceive(0), e2);
    AfterCons(Both(m, v, Box([Parcel(1, v)], 0, 2, Holding(Parcel(0, m)), true), [], []), DrainSend(0, Broken), e3);
    AfterCons(Both(m, v, Box([Parcel(1, v)], 0, 2, Faulted, true), [Parcel(0, m)], []), DrainRelease(0), e4);
    AfterCons(Both(m, v, Box([Parcel(1, v)], 0, 1, Stopping, true), [Parcel(0, m)], []), DrainStop(0), []);
  }

  /** A run in which a call with the correctly sized message `v` is told `Ok` and its message is lost
      although the peer is open, with `m` the only message that may be oversized. */
  predicate LosesAlive(m: Message, v: Message, es: seq<Event>, c: CallId) {
    var s := After(INITIAL, es);
    && (forall i :: 0 <= i < |es| ==> Ordinary(m, es[i]))
    && s.peerOpen && Missing(s, c) && s.calls[c].message == v
  }

  function LosingRun(m: Message, v: Message): seq<Event> {
    QueueFirst(m) + (QueueBehind(v) + FaultAndStop())
  }

  lemma LosingState(m: Message, v: Message)
    requires FitsBuffer(m) && !Sendable(m) && FitsBuffer(v)
    ensures After(INITIAL, LosingRun(m, v)) == Both(m, v, Box([], 0, 1, Stopped, true), [Parcel(0, m)], [Parcel(1, v)])
  {
    QueueFirstRun(m);
    QueueBehindRun(m, v);
    FaultAndStopRun(m, v);
    AfterConcat(Queued(m), QueueBehind(v), FaultAndStop());
    AfterConcat(INITIAL, QueueFirst(m), QueueBehind(v) + FaultAndStop());
  }

  lemma LosingIsOrdinary(m: Message, v: Message)
    requires Sendable(v)
    ensures forall e :: e in QueueFirst(m) || e in QueueBehind(v) || e in FaultAndStop() ==> Ordinary(m, e)
  {
  }

  /** Behind a queued oversized message any other is accepted, stranded and lost. */
  lemma OversizedLosesOthers(m: Message, v: Message)
    requires FitsBuffer(m) && !Sendable(m) && FitsBuffer(v) && Sendable(v)
    ensures LosesAlive(m, v, LosingRun(m, v), 1)
  {
    var es := LosingRun(m, v);
    LosingState(m, v);
    LosingIsOrdinary(m, v);
    forall i | 0 <= i < |es|
      ensures Ordinary(m, es[i])
    {
      assert es[i] in QueueFirst(m) || es[i] in QueueBehind(v) || es[i] in FaultAndStop();
    }
  }

  /** Whatever correctly sized message `v` another caller sends: it can be accepted and then lost with
      the peer open exactly because of a message with more descriptors than one control message
      carries. */
  lemma LossExactly(m: Message, v: Message)
    requires FitsBuffer(m) && FitsBuffer(v) && Sendable(v)
    ensures (exists es, c :: LosesAlive(m, v, es, c)) <==> !Sendable(m)
  {
    if Sendable(m) {
      forall es, c | LosesAlive(m, v, es, c)
        ensures false
      {
        OrdinaryFits(m, es);
        NothingLost(es, c);
      }
    } else {
      OversizedLosesOthers(m, v);
    }
  }
}
