/** Where every message is, what `pending` counts, which outbox is used, and what errors mean. */
module SendFates {
  import opened Wire
  import opened SendModel
  import opened SendInvariant
  import opened SendOrder
  import opened SenderOrder

  /** In every reachable state an accepted message is in exactly one place, unchanged; a message
      that was returned, was cancelled or is still with its call is in none. */
  lemma Conservation(es: seq<Event>, c: CallId)
    requires c in After(INITIAL, es).calls
    ensures var s := After(INITIAL, es); var k := s.calls[c];
      && (k.pc.Accepted? ==> Places(s)[Parcel(c, k.message)] == 1)
      && (forall p :: p in Places(s) && p.call == c ==> k.pc.Accepted? && p.message == k.message)
  {
    var s := After(INITIAL, es);
    Reachable(es);
    if s.calls[c].pc.Accepted? {
      var p := Parcel(c, s.calls[c].message);
      assert p in s.accepted;
      OnceAccepted(s, p);
    }
    forall p | p in Places(s) && p.call == c
      ensures IsAccepted(s, p)
    {
      assert p in multiset(s.accepted);
    }
  }

  /** No oversized message was ever accepted. */
  predicate NothingOversized(s: State) {
    forall p :: p in s.accepted ==> Sendable(p.message)
  }

  /** Then only a closed peer makes the drain fail. */
  lemma OpenMeansNoFailure(s: State)
    requires Conserve(s) && Faults(s) && NothingOversized(s) && s.peerOpen
    ensures s.failed == []
  {
    if s.failed != [] {
      FailedIsAccepted(s, 0);
    }
  }

  lemma FailedIsAccepted(s: State, i: nat)
    requires Conserve(s) && i < |s.failed|
    ensures s.failed[i] in s.accepted
  {
    assert s.failed[i] in Places(s) && s.failed[i] in multiset(s.accepted);
  }

  /** If no oversized message was accepted and the peer is alive nothing is lost: an accepted message
      is on the wire or in line, once, and on the wire once `pending` is zero. */
  lemma NothingLost(es: seq<Event>, c: CallId)
    requires NothingOversized(After(INITIAL, es)) && After(INITIAL, es).peerOpen
    requires c in After(INITIAL, es).calls && After(INITIAL, es).calls[c].pc.Accepted?
    ensures var s := After(INITIAL, es); var p := Parcel(c, s.calls[c].message);
      && s.failed == [] && s.stranded == []
      && multiset(s.wire)[p] + multiset(Line(s))[p] == 1
      && (Main(s).pending == 0 ==> multiset(s.wire)[p] == 1)
  {
    var s := After(INITIAL, es);
    Reachable(es);
    OpenMeansNoFailure(s);
    Conservation(es, c);
    assert multiset(Line(s)) == multiset(HeldBy(Main(s).drain)) + multiset(Main(s).queue);
  }

  /** A call keeps the message it was given, and once it has returned its answer stands. */
  lemma AnswerStands(es1: seq<Event>, es2: seq<Event>, c: CallId)
    requires c in After(INITIAL, es1).calls && Done(After(INITIAL, es1).calls[c].pc)
    ensures var t := After(After(INITIAL, es1), es2);
      c in t.calls && t.calls[c] == After(INITIAL, es1).calls[c]
  {
    LaterAfter(After(INITIAL, es1), es2);
  }

  /** `pending` never underflows, never misses an accepted message that is not yet on the wire, and
      exceeds the channel's depth by no more than one plus the callers inside a push. */
  lemma PendingExact(es: seq<Event>)
    ensures var s := After(INITIAL, es); var b := Main(s);
      && b.pending == |b.queue| + Owed(b.drain) + |Claimers(s)| + |s.stranded|
      && 0 <= b.pending <= DEPTH + 1 + |Claimers(s)|
      && 0 <= b.permits && |b.queue| + b.permits <= DEPTH
      && (s.stranded != [] ==> b.drain.Stopped?)
      && (b.pending == 0 ==> forall p :: p in s.accepted ==> p in s.wire || p in s.failed)
  {
    var s := After(INITIAL, es);
    Reachable(es);
    if Main(s).pending == 0 {
      forall p | p in s.accepted
        ensures p in s.wire || p in s.failed
      {
        NothingWaiting(s, p);
      }
    }
  }

  /** An outbox that lost the race to be installed. */
  predicate Lost(s: State, o: BoxId) {
    o in s.boxes && s.installed.Some? && s.installed.value != o
  }

  lemma {:induction false} LostAfter(s: State, es: seq<Event>, o: BoxId)
    requires Lost(s, o)
    ensures Lost(After(s, es), o)
    decreases |es|
  {
    if es != [] {
      LogsStep(s, es[0]);
      LostAfter(Step(s, es[0]), es[1..], o);
    }
  }

  /** A losing outbox's drain can neither receive nor send. */
  lemma LostIsIdle(s: State, o: BoxId)
    requires Shape(s) && Lost(s, o)
    ensures s.boxes[o].queue == [] && s.boxes[o].pending == 0
    ensures !Enabled(s, DrainReceive(o)) && (forall outcome :: !Enabled(s, DrainSend(o, outcome)))
  {
  }

  lemma CallsUseInstalled(s: State, c: CallId)
    requires Shape(s) && c in s.calls && UsesBox(s.calls[c].pc)
    ensures Some(s.calls[c].pc.box) == s.installed
  {
  }

  /** However many calls build at once, the installed outbox never changes, every call that holds
      an outbox holds that one, and a losing outbox stays empty for good: its drain can neither
      receive nor send. */
  lemma OneOutbox(es1: seq<Event>, es2: seq<Event>, o: BoxId)
    requires Lost(After(INITIAL, es1), o)
    ensures var s := After(INITIAL, es1); var t := After(s, es2);
      && t.installed == s.installed
      && (forall c :: c in t.calls && UsesBox(t.calls[c].pc) ==> Some(t.calls[c].pc.box) == s.installed)
      && o in t.boxes && t.boxes[o].queue == [] && t.boxes[o].pending == 0
      && !Enabled(t, DrainReceive(o)) && (forall outcome :: !Enabled(t, DrainSend(o, outcome)))
  {
    var s := After(INITIAL, es1);
    var t := After(s, es2);
    Reachable(es1);
    InvAfter(s, es2);
    LostAfter(s, es2, o);
    LaterAfter(s, es2);
    LostIsIdle(t, o);
    forall c | c in t.calls && UsesBox(t.calls[c].pc)
      ensures Some(t.calls[c].pc.box) == s.installed
    {
      CallsUseInstalled(t, c);
    }
  }

  // ---- A losing outbox retires ----

  predicate RacingFor(s: State, c: CallId, o: BoxId) {
    c in s.calls && s.calls[c].pc.Racing? && s.calls[c].pc.box == o
  }

  /** An outbox that still has a sender is the installed one, or somebody's who is about to install it. */
  ghost predicate Wanted(s: State, o: BoxId) {
    o in s.boxes && s.boxes[o].attached ==> s.installed == Some(o) || exists c :: RacingFor(s, c, o)
  }

  lemma InstallWanted(s: State, c: CallId, o: BoxId)
    requires Wanted(s, o) && Enabled(s, Install(c))
    ensures Wanted(Apply(s, Install(c)), o)
  {
    var t := Apply(s, Install(c));
    if o in t.boxes && t.boxes[o].attached && t.installed != Some(o) {
      var d :| RacingFor(s, d, o);
      assert d != c;
      assert RacingFor(t, d, o);
    }
  }

  lemma BuildWanted(s: State, c: CallId, own: BoxId, built: bool, o: BoxId)
    requires Wanted(s, o) && Enabled(s, Build(c, own, built))
    ensures Wanted(Apply(s, Build(c, own, built)), o)
  {
    var t := Apply(s, Build(c, own, built));
    if o == own {
      assert built ==> RacingFor(t, c, o);
    } else if d :| RacingFor(s, d, o) {
      assert RacingFor(t, d, o);
    }
  }

  /** No other step of a call's gives an outbox a sender, or takes a call out of the race. */
  lemma CallWanted(s: State, e: Event, o: BoxId)
    requires Wanted(s, o) && Enabled(s, e) && ByCall(e) && !e.Install? && !e.Build?
    ensures Wanted(Apply(s, e), o)
  {
    var t := Apply(s, e);
    SendersKept(s, e);
    if d :| RacingFor(s, d, o) {
      RacersKept(s, e, d, o);
    }
  }

  lemma SendersKept(s: State, e: Event)
    requires Enabled(s, e) && ByCall(e) && !e.Install? && !e.Build?
    ensures var t := Apply(s, e);
      t.installed == s.installed && forall o :: o in t.boxes ==> o in s.boxes && t.boxes[o].attached == s.boxes[o].attached
  {
    if e.Begin? || e.LookForOutbox? || e.LoadPending? || e.InlineSend? || e.GetOutbox? {
    } else if e.Push? || e.PermitSend? {
      QueuingKeepsSenders(s, e);
    } else {
      CountingKeepsSenders(s, e);
    }
  }

  lemma QueuingKeepsSenders(s: State, e: Event)
    requires Enabled(s, e) && (e.Push? || e.PermitSend?)
    ensures var t := ApplyCall(s, e);
      t.installed == s.installed && forall o :: o in t.boxes ==> o in s.boxes && t.boxes[o].attached == s.boxes[o].attached
  {
  }

  lemma CountingKeepsSenders(s: State, e: Event)
    requires Enabled(s, e)
    requires e.Claim? || e.Withdraw? || e.Grant? || e.Commit? || e.ReserveClosed? || e.Cancel?
    ensures var t := ApplyCall(s, e);
      t.installed == s.installed && forall o :: o in t.boxes ==> o in s.boxes && t.boxes[o].attached == s.boxes[o].attached
  {
  }

  lemma RacersKept(s: State, e: Event, c: CallId, o: BoxId)
    requires RacingFor(s, c, o) && Enabled(s, e) && !e.Install?
    ensures RacingFor(Apply(s, e), c, o)
  {
    CallsStep(s, e);
    if Apply(s, e).calls[c].pc != s.calls[c].pc {
      OwnStep(s, e, c);
    }
  }

  /** Nor does anybody else's. */
  lemma RestWanted(s: State, e: Event, o: BoxId)
    requires Wanted(s, o) && Enabled(s, e) && !ByCall(e)
    ensures Wanted(Apply(s, e), o)
  {
    var t := Apply(s, e);
    assert t.calls == s.calls && t.installed == s.installed;
    assert o in t.boxes && t.boxes[o].attached ==> o in s.boxes && s.boxes[o].attached;
    if c :| RacingFor(s, c, o) {
      assert RacingFor(t, c, o);
    }
  }

  lemma WantedStep(s: State, e: Event, o: BoxId)
    requires Wanted(s, o)
    ensures Wanted(Step(s, e), o)
  {
    if Enabled(s, e) {
      if e.Install? {
        InstallWanted(s, e.call, o);
      } else if e.Build? {
        BuildWanted(s, e.call, e.box, e.built, o);
      } else if ByCall(e) {
        CallWanted(s, e, o);
      } else {
        RestWanted(s, e, o);
      }
    }
  }

  lemma {:induction false} WantedAfter(s: State, es: seq<Event>, o: BoxId)
    requires Wanted(s, o)
    ensures Wanted(After(s, es), o)
    decreases |es|
  {
    if es != [] {
      WantedStep(s, es[0], o);
      WantedAfter(Step(s, es[0]), es[1..], o);
    }
  }

  /** It has no sender and carries nothing: there is nothing left for its drain but to end. */
  predicate Retiring(s: State, o: BoxId) {
    && Lost(s, o) && !s.boxes[o].attached && Unused(s.boxes[o])
  }

  lemma RetiringStep(s: State, e: Event, o: BoxId)
    requires Shape(s) && Retiring(s, o)
    ensures Retiring(Step(s, e), o)
    ensures s.boxes[o].drain.Finished? || e == DrainFinish(o) ==> Step(s, e).boxes[o].drain.Finished?
  {
    LogsStep(s, e);
    if Enabled(s, e) {
      if ByCall(e) {
        RetiringCall(s, e, o);
      } else {
        RetiringRest(s, e, o);
      }
    }
  }

  lemma RetiringRest(s: State, e: Event, o: BoxId)
    requires Retiring(s, o) && Enabled(s, e) && !ByCall(e)
    ensures o in Apply(s, e).boxes
    ensures Apply(s, e).boxes[o] == if e == DrainFinish(o) then s.boxes[o].(drain := Finished) else s.boxes[o]
  {
    if e.DropLastRef? || e.PeerRead? || e.PeerClose? {
    } else if e.box == o {
      assert e == DrainFinish(o);
    } else {
      OtherBoxKept(s, e, o);
    }
  }

  lemma OtherBoxKept(s: State, e: Event, o: BoxId)
    requires o in s.boxes && Enabled(s, e)
    requires (e.DrainReceive? || e.DrainSend? || e.DrainRelease? || e.DrainStop? || e.DrainFinish?) && e.box != o
    ensures o in Apply(s, e).boxes && Apply(s, e).boxes[o] == s.boxes[o]
  {
  }

  lemma RetiringCall(s: State, e: Event, o: BoxId)
    requires Shape(s) && Retiring(s, o) && Enabled(s, e) && ByCall(e)
    ensures o in Apply(s, e).boxes && Apply(s, e).boxes[o] == s.boxes[o]
  {
    if OfCall(e) {
      assert CallShape(s, s.calls[e.call]);
    }
  }

  lemma {:induction false} RetiringAfter(s: State, es: seq<Event>, o: BoxId)
    requires Inv(s) && Retiring(s, o)
    ensures Retiring(After(s, es), o)
    decreases |es|
  {
    if es != [] {
      InvStep(s, es[0]);
      RetiringStep(s, es[0], o);
      RetiringAfter(Step(s, es[0]), es[1..], o);
    }
  }

  lemma {:induction false} FinishedStays(s: State, es: seq<Event>, o: BoxId)
    requires Inv(s) && Retiring(s, o) && s.boxes[o].drain.Finished?
    ensures o in After(s, es).boxes && After(s, es).boxes[o].drain.Finished?
    decreases |es|
  {
    if es != [] {
      InvStep(s, es[0]);
      RetiringStep(s, es[0], o);
      FinishedStays(Step(s, es[0]), es[1..], o);
    }
  }

  lemma FinishesNow(s: State, o: BoxId, es: seq<Event>)
    requires Inv(s) && Retiring(s, o)
    ensures var t := After(s, [DrainFinish(o)] + es); o in t.boxes && t.boxes[o].drain.Finished?
  {
    RetiringStep(s, DrainFinish(o), o);
    InvStep(s, DrainFinish(o));
    FinishedStays(Step(s, DrainFinish(o)), es, o);
    AfterCons(s, DrainFinish(o), es);
  }

  /** One step of its drain's is all it takes. */
  lemma FinishesWith(s: State, es: seq<Event>, o: BoxId)
    requires Inv(s) && Retiring(s, o) && DrainFinish(o) in es
    ensures o in After(s, es).boxes && After(s, es).boxes[o].drain.Finished?
  {
    var i :| 0 <= i < |es| && es[i] == DrainFinish(o);
    var before, rest := es[..i], es[i + 1..];
    assert es == before + ([DrainFinish(o)] + rest);
    RetiringAfter(s, before, o);
    InvAfter(s, before);
    FinishesNow(After(s, before), o, rest);
    AfterConcat(s, before, [DrainFinish(o)] + rest);
  }

  /** What is retiring has nothing left but to end, at once. */
  lemma RetiringEnds(s: State, o: BoxId)
    requires Retiring(s, o)
    ensures s.boxes[o].drain.Finished? || Enabled(s, DrainFinish(o))
  {
  }

  /** A box nobody wants is retiring. */
  lemma UnwantedRetires(s: State, o: BoxId)
    requires Shape(s) && Wanted(s, o) && NoLoserYet(s)
    requires o in s.boxes && s.installed != Some(o) && forall c :: !RacingFor(s, c, o)
    ensures Retiring(s, o)
  {
  }

  /** An outbox that is not the installed one, and that nobody is about to install, has lost its last
      sender: in every schedule from there its drain can end at once, until it does, and it ends with
      that one step. */
  lemma LoserRetires(es1: seq<Event>, es2: seq<Event>, o: BoxId)
    requires var s := After(INITIAL, es1);
      o in s.boxes && s.installed != Some(o) && forall c :: !RacingFor(s, c, o)
    ensures var t := After(After(INITIAL, es1), es2);
      && o in t.boxes && !t.boxes[o].attached
      && (t.boxes[o].drain.Finished? || Enabled(t, DrainFinish(o)))
      && (DrainFinish(o) in es2 ==> t.boxes[o].drain.Finished?)
  {
    var s := After(INITIAL, es1);
    Reachable(es1);
    WantedAfter(INITIAL, es1, o);
    NoLoserYetAfter(INITIAL, es1);
    UnwantedRetires(s, o);
    RetiringAfter(s, es2, o);
    RetiringEnds(After(s, es2), o);
    if DrainFinish(o) in es2 {
      FinishesWith(s, es2, o);
    }
  }

  /** Until one is installed no outbox loses its sender. */
  predicate NoLoserYet(s: State) {
    s.installed.None? ==> forall o :: o in s.boxes ==> s.boxes[o].attached
  }

  lemma RestKeepsSenders(s: State, e: Event)
    requires s.installed.None? && Enabled(s, e) && !ByCall(e)
    ensures var t := Apply(s, e);
      t.installed == s.installed && forall o :: o in t.boxes ==> o in s.boxes && t.boxes[o].attached == s.boxes[o].attached
  {
    if e.DropLastRef? || e.PeerRead? || e.PeerClose? {
    } else {
      DrainKeepsSenders(s, e);
    }
  }

  lemma DrainKeepsSenders(s: State, e: Event)
    requires Enabled(s, e)
    requires e.DrainReceive? || e.DrainSend? || e.DrainRelease? || e.DrainStop? || e.DrainFinish?
    ensures var t := Apply(s, e);
      t.installed == s.installed && forall o :: o in t.boxes ==> o in s.boxes && t.boxes[o].attached == s.boxes[o].attached
  {
  }

  lemma NoLoserYetStep(s: State, e: Event)
    requires NoLoserYet(s)
    ensures NoLoserYet(Step(s, e))
  {
    if s.installed.None? && Enabled(s, e) && !e.Install? && !e.Build? {
      if ByCall(e) {
        SendersKept(s, e);
      } else {
        RestKeepsSenders(s, e);
      }
    }
  }

  lemma {:induction false} NoLoserYetAfter(s: State, es: seq<Event>)
    requires NoLoserYet(s)
    ensures NoLoserYet(After(s, es))
    decreases |es|
  {
    if es != [] {
      NoLoserYetStep(s, es[0]);
      NoLoserYetAfter(Step(s, es[0]), es[1..]);
    }
  }

  // ---- What an error means ----

  predicate BuildsSucceed(es: seq<Event>) {
    forall i :: 0 <= i < |es| && es[i].Build? ==> es[i].built
  }

  /** Something to blame for a `Closed`: the peer, or an oversized message that stopped the drain. */
  predicate Blame(s: State) {
    !s.peerOpen || exists i :: 0 <= i < |s.failed| && !Sendable(s.failed[i].message)
  }

  lemma BlameStays(s: State, t: State)
    requires Blame(s) && LaterLogs(s, t)
    ensures Blame(t)
  {
  }

  lemma GoneReceiverIsBlamed(s: State)
    requires Inv(s) && s.installed.Some? && s.held && !ReceiverOpen(Main(s))
    ensures Blame(s)
  {
    assert s.failed != [];
    assert !Sendable(s.failed[0].message) || !s.peerOpen;
  }

  /** Does this program counter report a closed channel or peer? */
  predicate SaysClosed(pc: Pc) {
    pc == Returned(Closed) || (pc.Refused? && pc.error.Closed?)
  }

  /** Step `i` of the schedule was the call's own failure to build an outbox. */
  predicate BuildFailedAt(es: seq<Event>, i: nat, c: CallId) {
    i < |es| && es[i].Build? && es[i].call == c && !es[i].built && Enabled(After(INITIAL, es[..i]), es[i])
  }

  predicate BuildFailed(es: seq<Event>, c: CallId) {
    exists i :: 0 <= i < |es| && BuildFailedAt(es, i, c)
  }

  /** A step answers `Closed` only when there is something to blame, or the build it was failed. */
  lemma NewlyClosed(s: State, e: Event)
    requires Inv(s) && Enabled(s, e) && OfCall(e) && !(e.Build? && !e.built)
    requires SaysClosed(NextPc(s, e))
    ensures Blame(s) || SaysClosed(s.calls[e.call].pc)
  {
    assert CallShape(s, s.calls[e.call]);
    if e.Push? || e.ReserveClosed? {
      GoneReceiverIsBlamed(s);
    }
  }

  lemma ClosedStep(s: State, e: Event, c: CallId)
    requires Inv(s) && c in Step(s, e).calls && SaysClosed(Step(s, e).calls[c].pc)
    ensures (c in s.calls && SaysClosed(s.calls[c].pc)) || Blame(Step(s, e))
         || (e.Build? && e.call == c && !e.built && Enabled(s, e))
  {
    LogsStep(s, e);
    CallsStep(s, e);
    if Enabled(s, e) && c in s.calls && Step(s, e).calls[c].pc != s.calls[c].pc {
      OwnStep(s, e, c);
      if !(e.Build? && !e.built) {
        NewlyClosed(s, e);
        if Blame(s) {
          BlameStays(s, Step(s, e));
        }
      }
    }
  }

  /** In every run whatever, a call is told `Closed` only if the peer is gone, or an oversized message
      has stopped the drain, or the call's own attempt to build an outbox failed. */
  lemma {:induction false} ClosedHasCause(es: seq<Event>, c: CallId)
    requires c in After(INITIAL, es).calls && SaysClosed(After(INITIAL, es).calls[c].pc)
    ensures Blame(After(INITIAL, es)) || BuildFailed(es, c)
    decreases |es|
  {
    if es != [] {
      var n := |es| - 1;
      var pre := es[..n];
      assert es == pre + [es[n]];
      AfterSnoc(INITIAL, pre, es[n]);
      Reachable(pre);
      ClosedStep(After(INITIAL, pre), es[n], c);
      if c in After(INITIAL, pre).calls && SaysClosed(After(INITIAL, pre).calls[c].pc) {
        ClosedHasCause(pre, c);
        CauseStays(pre, es[n], c);
      } else if !Blame(After(INITIAL, es)) {
        assert BuildFailedAt(es, n, c);
      }
    }
  }

  lemma CauseStays(pre: seq<Event>, e: Event, c: CallId)
    requires Blame(After(INITIAL, pre)) || BuildFailed(pre, c)
    ensures Blame(After(INITIAL, pre + [e])) || BuildFailed(pre + [e], c)
  {
    AfterSnoc(INITIAL, pre, e);
    if Blame(After(INITIAL, pre)) {
      LogsStep(After(INITIAL, pre), e);
      BlameStays(After(INITIAL, pre), After(INITIAL, pre + [e]));
    } else {
      var i :| 0 <= i < |pre| && BuildFailedAt(pre, i, c);
      assert (pre + [e])[..i] == pre[..i];
      assert BuildFailedAt(pre + [e], i, c);
    }
  }

  /** `Closed` means that the peer is gone, as long as no oversized message was accepted and the call
      itself did not fail to build an outbox. */
  lemma HonestClosed(es: seq<Event>, c: CallId)
    requires NothingOversized(After(INITIAL, es)) && !BuildFailed(es, c)
    requires c in After(INITIAL, es).calls && After(INITIAL, es).calls[c].pc == Returned(Closed)
    ensures !After(INITIAL, es).peerOpen
  {
    var s := After(INITIAL, es);
    ClosedHasCause(es, c);
    Reachable(es);
    if s.peerOpen {
      OpenMeansNoFailure(s);
    }
  }

  predicate GivenSendable(s: State) {
    forall c :: c in s.calls ==> Sendable(s.calls[c].message)
  }

  lemma {:induction false} GivenAfter(s: State, es: seq<Event>)
    requires GivenSendable(s) && forall i :: 0 <= i < |es| && es[i].Begin? ==> Sendable(es[i].message)
    ensures GivenSendable(After(s, es))
    decreases |es|
  {
    if es != [] {
      CallsStep(s, es[0]);
      if es[0].Begin? && Enabled(s, es[0]) {
        BeginGives(s, es[0]);
      }
      assert forall i :: 0 <= i < |es[1..]| ==> es[1..][i] == es[i + 1];
      GivenAfter(Step(s, es[0]), es[1..]);
    }
  }

  lemma BeginGives(s: State, e: Event)
    requires e.Begin? && Enabled(s, e)
    ensures e.call in Step(s, e).calls && Step(s, e).calls[e.call].message == e.message
  {
  }

  /** In a run whose only oversized message could be `m`, with `m` sendable, none is accepted. */
  lemma OrdinaryFits(m: Message, es: seq<Event>)
    requires Sendable(m) && forall i :: 0 <= i < |es| ==> Ordinary(m, es[i])
    ensures NothingOversized(After(INITIAL, es))
  {
    var s := After(INITIAL, es);
    GivenAfter(INITIAL, es);
    Reachable(es);
    forall p | p in s.accepted
      ensures Sendable(p.message)
    {
      var i :| 0 <= i < |s.accepted| && s.accepted[i] == p;
      assert IsAccepted(s, s.accepted[i]);
    }
  }

  /** Only `m` may be oversized. */
  predicate Ordinary(m: Message, e: Event) {
    e.Begin? ==> e.message == m || Sendable(e.message)
  }

  /** A run in which a call is told `Closed` although the peer is open, with `m` the only message
      that may be oversized, and builds failing only if they may. */
  predicate FalseClosed(m: Message, buildsMayFail: bool, es: seq<Event>, c: CallId) {
    var s := After(INITIAL, es);
    && (forall i :: 0 <= i < |es| ==> Ordinary(m, es[i]))
    && (buildsMayFail || BuildsSucceed(es))
    && s.peerOpen && c in s.calls && s.calls[c].pc == Returned(Closed)
  }

  /** A second call with the same message, after the drain stopped. */
  function Again(m: Message): seq<Event> {
    [DrainStop(0)] + ([Begin(1, m, false)] + ([LookForOutbox(1)] + ([LoadPending(1)]
    + ([GetOutbox(1)] + ([Claim(1)] + ([Push(1)] + ([Withdraw(1)] + [])))))))
  }

  function Retry(m: Message, pc: Pc, pending: int): State {
    var s := Failing(m, pending, Stopped);
    s.(calls := s.calls[1 := Call(m, false, 1, pc)])
  }

  lemma StopStep(m: Message)
    ensures Step(Failing(m, 0, Stopping), DrainStop(0)) == Failing(m, 0, Stopped)
  {
  }

  lemma RetrySteps(m: Message)
    requires FitsBuffer(m) && !Sendable(m)
    ensures Step(Failing(m, 0, Stopped), Begin(1, m, false)) == Retry(m, Entered, 0)
    ensures Step(Retry(m, Entered, 0), LookForOutbox(1)) == Retry(m, Checking(0), 0)
    ensures Step(Retry(m, Checking(0), 0), LoadPending(1)) == Retry(m, Queueing(false), 0)
  {
  }

  lemma ClaimSteps(m: Message)
    ensures Step(Retry(m, Queueing(false), 0), GetOutbox(1)) == Retry(m, Pushing(0), 0)
    ensures Step(Retry(m, Pushing(0), 0), Claim(1)) == Retry(m, Claimed(0), 1)
  {
  }

  lemma RefuseSteps(m: Message)
    ensures Step(Retry(m, Claimed(0), 1), Push(1)) == Retry(m, Refused(0, Closed), 1)
    ensures Step(Retry(m, Refused(0, Closed), 1), Withdraw(1)) == Retry(m, Returned(Closed), 0)
  {
  }

  lemma AgainRun(m: Message)
    requires FitsBuffer(m) && !Sendable(m)
    ensures After(Failing(m, 0, Stopping), Again(m)) == Retry(m, Returned(Closed), 0)
  {
    StopStep(m);
    RetrySteps(m);
    ClaimSteps(m);
    RefuseSteps(m);
    var e8 := [Withdraw(1)] + [];
    var e7 := [Push(1)] + e8;
    var e6 := [Claim(1)] + e7;
    var e5 := [GetOutbox(1)] + e6;
    var e4 := [LoadPending(1)] + e5;
    var e3 := [LookForOutbox(1)] + e4;
    var e2 := [Begin(1, m, false)] + e3;
    AfterCons(Failing(m, 0, Stopping), DrainStop(0), e2);
    AfterCons(Failing(m, 0, Stopped), Begin(1, m, false), e3);
    AfterCons(Retry(m, Entered, 0), LookForOutbox(1), e4);
    AfterCons(Retry(m, Checking(0), 0), LoadPending(1), e5);
    AfterCons(Retry(m, Queueing(false), 0), GetOutbox(1), e6);
    AfterCons(Retry(m, Pushing(0), 0), Claim(1), e7);
    AfterCons(Retry(m, Claimed(0), 1), Push(1), e8);
    AfterCons(Retry(m, Refused(0, Closed), 1), Withdraw(1), []);
  }

  lemma FalseClosedRun(m: Message, buildsMayFail: bool)
    requires FitsBuffer(m) && !Sendable(m)
    ensures FalseClosed(m, buildsMayFail, QueueFirst(m) + (Fault() + Again(m)), 1)
  {
    FalseClosedState(m);
    var es := QueueFirst(m) + (Fault() + Again(m));
    OnlyMessage(m);
    forall i | 0 <= i < |es|
      ensures Ordinary(m, es[i]) && (es[i].Build? ==> es[i].built)
    {
      assert es[i] in QueueFirst(m) || es[i] in Fault() || es[i] in Again(m);
    }
  }

  lemma FalseClosedState(m: Message)
    requires FitsBuffer(m) && !Sendable(m)
    ensures After(INITIAL, QueueFirst(m) + (Fault() + Again(m))) == Retry(m, Returned(Closed), 0)
  {
    QueueFirstRun(m);
    FaultRun(m);
    AgainRun(m);
    AfterConcat(Queued(m), Fault(), Again(m));
    AfterConcat(INITIAL, QueueFirst(m), Fault() + Again(m));
  }

  lemma OnlyMessage(m: Message)
    ensures forall e :: e in QueueFirst(m) || e in Fault() || e in Again(m) ==>
              Ordinary(m, e) && (e.Build? ==> e.built)
  {
  }

  /** One message is on the wire, unread; the next call finds no room, and cannot build an outbox. */
  function BuildFails(m: Message): seq<Event> {
    [Begin(0, m, false)] + ([LookForOutbox(0)] + ([InlineSend(0, Sent)] + ([Begin(1, m, false)] + ([LookForOutbox(1)]
    + ([InlineSend(1, WouldBlock)] + ([GetOutbox(1)] + ([Build(1, 0, false)] + [])))))))
  }

  function Unread(m: Message): State {
    Alone(m, Accepted).(wire := [Parcel(0, m)], accepted := [Parcel(0, m)])
  }

  function Next(m: Message, pc: Pc): State {
    var s := Unread(m);
    s.(calls := s.calls[1 := Call(m, false, 1, pc)])
  }

  lemma FirstInlineSteps(m: Message)
    requires FitsBuffer(m) && Sendable(m)
    ensures Step(INITIAL, Begin(0, m, false)) == Alone(m, Entered)
    ensures Step(Alone(m, Entered), LookForOutbox(0)) == Alone(m, Cleared)
    ensures Step(Alone(m, Cleared), InlineSend(0, Sent)) == Unread(m)
  {
    assert [] + [Parcel(0, m)] == [Parcel(0, m)];
  }

  lemma NoRoomSteps(m: Message)
    requires FitsBuffer(m) && Sendable(m)
    ensures Step(Unread(m), Begin(1, m, false)) == Next(m, Entered)
    ensures Step(Next(m, Entered), LookForOutbox(1)) == Next(m, Cleared)
    ensures Step(Next(m, Cleared), InlineSend(1, WouldBlock)) == Next(m, Queueing(false))
  {
  }

  lemma NoOutboxSteps(m: Message)
    ensures Step(Next(m, Queueing(false)), GetOutbox(1)) == Next(m, Building(false))
    ensures Step(Next(m, Building(false)), Build(1, 0, false)) == Next(m, Returned(Closed))
  {
  }

  lemma BuildFailsState(m: Message)
    requires FitsBuffer(m) && Sendable(m)
    ensures After(INITIAL, BuildFails(m)) == Next(m, Returned(Closed))
  {
    FirstInlineSteps(m);
    NoRoomSteps(m);
    NoOutboxSteps(m);
    var e8 := [Build(1, 0, false)] + [];
    var e7 := [GetOutbox(1)] + e8;
    var e6 := [InlineSend(1, WouldBlock)] + e7;
    var e5 := [LookForOutbox(1)] + e6;
    var e4 := [Begin(1, m, false)] + e5;
    var e3 := [InlineSend(0, Sent)] + e4;
    var e2 := [LookForOutbox(0)] + e3;
    AfterCons(INITIAL, Begin(0, m, false), e2);
    AfterCons(Alone(m, Entered), LookForOutbox(0), e3);
    AfterCons(Alone(m, Cleared), InlineSend(0, Sent), e4);
    AfterCons(Unread(m), Begin(1, m, false), e5);
    AfterCons(Next(m, Entered), LookForOutbox(1), e6);
    AfterCons(Next(m, Cleared), InlineSend(1, WouldBlock), e7);
    AfterCons(Next(m, Queueing(false)), GetOutbox(1), e8);
    AfterCons(Next(m, Building(false)), Build(1, 0, false), []);
  }

  /** A failed build is reported as a closed peer although every message could be sent. */
  lemma FailedBuildLooksClosed(m: Message)
    requires FitsBuffer(m) && Sendable(m)
    ensures FalseClosed(m, true, BuildFails(m), 1)
  {
    BuildFailsState(m);
  }

  /** Exactly an oversized message or a failed build can make a live peer look closed. */
  lemma HonestExactly(m: Message, buildsMayFail: bool)
    requires FitsBuffer(m)
    ensures (exists es, c :: FalseClosed(m, buildsMayFail, es, c)) <==> !Sendable(m) || buildsMayFail
  {
    if !Sendable(m) {
      FalseClosedRun(m, buildsMayFail);
    } else if buildsMayFail {
      FailedBuildLooksClosed(m);
    } else {
      forall es, c | FalseClosed(m, buildsMayFail, es, c)
        ensures false
      {
        OrdinaryFits(m, es);
        NoBuildFailed(es, c);
        HonestClosed(es, c);
      }
    }
  }

  lemma NoBuildFailed(es: seq<Event>, c: CallId)
    requires BuildsSucceed(es)
    ensures !BuildFailed(es, c)
  {
  }

  // ---- What `Full` means ----

  /** Has the call been through a push that found the channel full? */
  predicate PastFull(pc: Pc) {
    || (pc.Refused? && pc.error.Full?) || pc == Returned(Full)
    || ((pc.Queueing? || pc.Building? || pc.Racing?) && pc.parking)
    || pc.Parked? || pc.Granted? || pc.Committed? || pc.Cancelled?
  }

  predicate SlotsTaken(s: State, c: CallId) {
    && c in s.calls && s.calls[c].pc.Claimed? && s.calls[c].pc.box in s.boxes
    && var b := s.boxes[s.calls[c].pc.box]; ReceiverOpen(b) && |b.queue| + b.permits == DEPTH
  }

  /** Step `k` of the schedule was the call's push, and all slots were taken. */
  predicate FoundFull(es: seq<Event>, k: nat, c: CallId) {
    k < |es| && es[k] == Push(c) && SlotsTaken(After(INITIAL, es[..k]), c)
  }

  lemma OwnFullStep(s: State, e: Event)
    requires Enabled(s, e) && OfCall(e) && e.call in s.calls && CallShape(s, s.calls[e.call])
    requires PastFull(NextPc(s, e))
    requires |Main(s).queue| + Main(s).permits <= DEPTH
    ensures PastFull(s.calls[e.call].pc) || (e.Push? && SlotsTaken(s, e.call))
  {
  }

  lemma FullStep(s: State, e: Event, c: CallId)
    requires Shape(s) && c in Step(s, e).calls && PastFull(Step(s, e).calls[c].pc)
    requires |Main(s).queue| + Main(s).permits <= DEPTH
    ensures (c in s.calls && PastFull(s.calls[c].pc)) || (e == Push(c) && SlotsTaken(s, c))
  {
    if Enabled(s, e) {
      CallsStep(s, e);
      if c in s.calls && Step(s, e).calls[c].pc != s.calls[c].pc {
        OwnStep(s, e, c);
        OwnFullStep(s, e);
      }
    }
  }

  lemma FullLast(pre: seq<Event>, e: Event, c: CallId)
    requires var t := After(INITIAL, pre + [e]); c in t.calls && PastFull(t.calls[c].pc)
    ensures var s := After(INITIAL, pre);
      (c in s.calls && PastFull(s.calls[c].pc)) || (e == Push(c) && SlotsTaken(s, c))
  {
    AfterSnoc(INITIAL, pre, e);
    Reachable(pre);
    FullStep(After(INITIAL, pre), e, c);
  }

  /** `Full` is answered, and `send` parks, only if the call's own push found every slot taken
      with the drain still there. */
  lemma {:induction false} FullMeansFull(es: seq<Event>, c: CallId)
    requires c in After(INITIAL, es).calls && PastFull(After(INITIAL, es).calls[c].pc)
    ensures exists k: nat :: FoundFull(es, k, c)
    decreases |es|
  {
    if es != [] {
      var n := |es| - 1;
      var pre := es[..n];
      assert es == pre + [es[n]];
      FullLast(pre, es[n], c);
      if es[n] == Push(c) && SlotsTaken(After(INITIAL, pre), c) {
        assert FoundFull(es, n, c);
      } else {
        FullMeansFull(pre, c);
        var k: nat :| FoundFull(pre, k, c);
        assert es[..k] == pre[..k];
        assert FoundFull(es, k, c);
      }
    }
  }

  /** `send` waits out a full queue: it never answers `Full`. */
  lemma SendNeverFull(es: seq<Event>, c: CallId)
    requires c in After(INITIAL, es).calls && After(INITIAL, es).calls[c].waits
    ensures After(INITIAL, es).calls[c].pc != Returned(Full)
  {
    Reachable(es);
    assert CallShape(After(INITIAL, es), After(INITIAL, es).calls[c]);
  }

  // ---- After the drain has stopped ----

  /** The drain has stopped for good: behind a closed peer, or with messages left behind it. */
  predicate GivenUp(s: State) {
    s.installed.Some? && Main(s).drain.Stopped? && (!s.peerOpen || s.stranded != [])
  }

  /** The places a call can be once the drain has given up. Only a closed peer lets it near the
      fast path: what was left behind keeps `pending` raised. */
  predicate Doomed(s: State, k: Call) {
    || k.pc.Entered? || k.pc.Checking? || (k.pc.Cleared? && !s.peerOpen)
    || (k.pc.Queueing? && !k.pc.parking) || k.pc.Pushing? || k.pc.Claimed? || (k.pc.Refused? && k.pc.error.Closed?)
    || k.pc == Returned(if FitsBuffer(k.message) then Closed else TooLarge)
  }

  lemma CallsKeepDrains(s: State, e: Event, o: BoxId)
    requires o in s.boxes && (OfCall(e) || e.Begin?)
    ensures o in Step(s, e).boxes && Step(s, e).boxes[o].drain == s.boxes[o].drain
  {
    if Enabled(s, e) {
      match e {
        case Build(_, _, _) | Install(_) | Claim(_) | Push(_) | Withdraw(_) | Grant(_) | Commit(_) =>
          assert Apply(s, e) == ApplyCall(s, e);
        case PermitSend(_) | ReserveClosed(_) | Cancel(_) =>
        case _ =>
      }
    }
  }

  /** A drain that has stopped stays stopped. */
  lemma StoppedStays(s: State, e: Event, o: BoxId)
    requires o in s.boxes && s.boxes[o].drain.Stopped?
    ensures o in Step(s, e).boxes && Step(s, e).boxes[o].drain.Stopped?
  {
    if OfCall(e) || e.Begin? {
      CallsKeepDrains(s, e, o);
    }
  }

  lemma GivenUpStep(s: State, e: Event)
    requires Shape(s) && GivenUp(s)
    ensures GivenUp(Step(s, e))
  {
    LogsStep(s, e);
    StoppedStays(s, e, s.installed.value);
  }

  /** A doomed call's own step leaves it doomed. */
  lemma OwnDoomed(s: State, e: Event)
    requires GivenUp(s) && Account(s) && Enabled(s, e) && OfCall(e) && CallShape(s, s.calls[e.call])
    requires s.installed.value in s.boxes && Doomed(s, s.calls[e.call])
    ensures Doomed(s, s.calls[e.call].(pc := NextPc(s, e)))
  {
  }

  lemma DoomedStep(s: State, e: Event, c: CallId)
    requires Inv(s) && GivenUp(s) && (c in s.calls ==> Doomed(s, s.calls[c]))
    ensures c in Step(s, e).calls ==> Doomed(Step(s, e), Step(s, e).calls[c])
  {
    LogsStep(s, e);
    CallsStep(s, e);
    if Enabled(s, e) && c in s.calls && Step(s, e).calls[c].pc != s.calls[c].pc {
      OwnStep(s, e, c);
      assert CallShape(s, s.calls[c]);
      OwnDoomed(s, e);
    }
  }

  lemma {:induction false} DoomedAfter(s: State, es: seq<Event>, c: CallId)
    requires Inv(s) && GivenUp(s) && (c in s.calls ==> Doomed(s, s.calls[c]))
    ensures c in After(s, es).calls ==> Doomed(After(s, es), After(s, es).calls[c])
    decreases |es|
  {
    if es != [] {
      InvStep(s, es[0]);
      GivenUpStep(s, es[0]);
      DoomedStep(s, es[0], c);
      DoomedAfter(Step(s, es[0]), es[1..], c);
    }
  }

  /** Once the drain has stopped behind a closed peer, or with messages left behind it, a call that
      begins and ends is told `Closed`, unless its payload was too large in the first place. */
  lemma LaterCallsAreClosed(es1: seq<Event>, es2: seq<Event>, c: CallId)
    requires var s := After(INITIAL, es1); GivenUp(s) && c !in s.calls
    requires var t := After(After(INITIAL, es1), es2); c in t.calls && Done(t.calls[c].pc)
    ensures var k := After(After(INITIAL, es1), es2).calls[c];
      k.pc == Returned(if FitsBuffer(k.message) then Closed else TooLarge)
  {
    Reachable(es1);
    DoomedAfter(After(INITIAL, es1), es2, c);
  }
}
