/** What the two-tier send promises its callers about progress: a call never waits except for room, and
    a wait can be given up at any moment. */
module SendProgress {
  import opened Wire
  import opened SendModel
  import opened SendInvariant
  import opened SendOrder
  import opened SendFates

  /** A bound on the steps a call can still take. */
  function Rank(pc: Pc): nat {
    match pc
    case Entered => 13
    case Checking(_) => 12
    case Cleared => 11
    case Queueing(parking) => if parking then 4 else 10
    case Building(parking) => if parking then 4 else 9
    case Racing(_, parking) => if parking then 4 else 8
    case Pushing(_) => 7
    case Claimed(_) => 6
    case Refused(_, _) => 5
    case Parked(_) => 3
    case Granted(_) => 2
    case Committed(_) => 1
    case Accepted | Returned(_) | Cancelled => 0
  }

  /** How many of the schedule's steps are the call's own, and enabled. */
  function OwnSteps(s: State, es: seq<Event>, c: CallId): nat
    decreases |es|
  {
    if es == [] then 0
    else
      (if Enabled(s, es[0]) && OfCall(es[0]) && es[0].call == c then 1 else 0) + OwnSteps(Step(s, es[0]), es[1..], c)
  }

  lemma RankFalls(s: State, e: Event)
    requires Enabled(s, e) && OfCall(e) && CallShape(s, s.calls[e.call])
    ensures Rank(NextPc(s, e)) < Rank(s.calls[e.call].pc)
  {
  }

  lemma RankStep(s: State, e: Event, c: CallId)
    requires Shape(s) && c in s.calls
    ensures c in Step(s, e).calls
    ensures Rank(Step(s, e).calls[c].pc) + OwnSteps(s, [e], c) <= Rank(s.calls[c].pc)
  {
    CallsStep(s, e);
    if Enabled(s, e) {
      if OfCall(e) && e.call == c {
        OneCallMoves(s, e);
        assert CallShape(s, s.calls[c]);
        RankFalls(s, e);
      } else if Step(s, e).calls[c].pc != s.calls[c].pc {
        OwnStep(s, e, c);
      }
    }
    assert [e][1..] == [];
  }

  lemma {:induction false} RankAfter(s: State, es: seq<Event>, c: CallId)
    requires Inv(s) && c in s.calls
    ensures c in After(s, es).calls
    ensures Rank(After(s, es).calls[c].pc) + OwnSteps(s, es, c) <= Rank(s.calls[c].pc)
    decreases |es|
  {
    if es != [] {
      InvStep(s, es[0]);
      RankStep(s, es[0], c);
      assert [es[0]][1..] == [];
      RankAfter(Step(s, es[0]), es[1..], c);
    }
  }

  /** Which step a call takes next, with `outcome` for the kernel's answer. */
  function OwnEvent(s: State, c: CallId, outcome: Outcome, spare: BoxId): Event
    requires c in s.calls && !Done(s.calls[c].pc)
  {
    match s.calls[c].pc
    case Entered => LookForOutbox(c)
    case Checking(_) => LoadPending(c)
    case Cleared => InlineSend(c, outcome)
    case Queueing(_) => GetOutbox(c)
    case Building(_) => Build(c, spare, true)
    case Racing(_, _) => Install(c)
    case Pushing(_) => Claim(c)
    case Claimed(_) => Push(c)
    case Refused(_, _) => Withdraw(c)
    case Parked(o) => if o in s.boxes && ReceiverOpen(s.boxes[o]) then Grant(c) else ReserveClosed(c)
    case Granted(_) => Commit(c)
    case Committed(_) => PermitSend(c)
    case _ => PeerRead
  }

  /** The kernel always answers a `sendmsg`. */
  function Answer(s: State): Outcome {
    if s.peerOpen then Sent else Broken
  }

  predicate AllSlotsTaken(b: Box) {
    ReceiverOpen(b) && |b.queue| + b.permits == DEPTH
  }

  /** A call that has not returned always has a step of its own to take, unless it is a `send`
      parked while every slot is taken and the drain is still there. */
  lemma NextStepEnabled(es: seq<Event>, c: CallId, spare: BoxId)
    requires var s := After(INITIAL, es); c in s.calls && !Done(s.calls[c].pc) && spare !in s.boxes
    ensures var s := After(INITIAL, es);
      || Enabled(s, OwnEvent(s, c, Answer(s), spare))
      || (s.calls[c].waits && s.calls[c].pc.Parked? && AllSlotsTaken(Main(s)))
  {
    var s := After(INITIAL, es);
    Reachable(es);
    assert CallShape(s, s.calls[c]);
    OwnEnabled(s, c, spare);
  }

  lemma OwnEnabled(s: State, c: CallId, spare: BoxId)
    requires c in s.calls && !Done(s.calls[c].pc) && spare !in s.boxes && CallShape(s, s.calls[c])
    requires s.installed.Some? ==> s.installed.value in s.boxes
    requires |Main(s).queue| + Main(s).permits <= DEPTH
    ensures Enabled(s, OwnEvent(s, c, Answer(s), spare))
         || (s.calls[c].waits && s.calls[c].pc.Parked? && AllSlotsTaken(Main(s)))
  {
  }

  /** `try_send` never blocks: it takes at most thirteen steps of its own, whatever the others do
      meanwhile, and until it returns one is always enabled. */
  lemma TrySendNeverBlocks(es1: seq<Event>, es2: seq<Event>, c: CallId, spare: BoxId)
    requires var s := After(INITIAL, es1); c in s.calls && !s.calls[c].waits
    requires spare !in After(After(INITIAL, es1), es2).boxes
    ensures var s := After(INITIAL, es1); var t := After(s, es2);
      && OwnSteps(s, es2, c) <= Rank(s.calls[c].pc) <= 13
      && c in t.calls
      && (Done(t.calls[c].pc) || Enabled(t, OwnEvent(t, c, Answer(t), spare)))
  {
    var s := After(INITIAL, es1);
    Reachable(es1);
    RankAfter(s, es2, c);
    LaterAfter(s, es2);
    AfterConcat(INITIAL, es1, es2);
    if !Done(After(s, es2).calls[c].pc) {
      NextStepEnabled(es1 + es2, c, spare);
    }
  }

  /** Dropping a `send` while it waits, at any moment, gives back the slot it may have been granted and
      changes nothing else: no count, no queue, no other call. */
  lemma CancelIsClean(s: State, c: CallId)
    requires Inv(s) && Enabled(s, Cancel(c))
    ensures var t := Step(s, Cancel(c));
      && Main(t) == Main(s).(permits := Main(t).permits)
      && Main(t).permits == Main(s).permits - (if s.calls[c].pc.Granted? then 1 else 0)
      && t == s.(calls := t.calls, boxes := t.boxes) && t.calls == s.calls[c := s.calls[c].(pc := Cancelled)]
      && (forall o :: o in s.boxes && s.installed != Some(o) ==> t.boxes[o] == s.boxes[o])
  {
  }

  /** A wait granted a slot and dropped before anybody else moves leaves everything but the call as it
      was before the grant. */
  lemma CancelUndoesGrant(s: State, c: CallId)
    requires Shape(s) && Enabled(s, Grant(c))
    ensures Enabled(Step(s, Grant(c)), Cancel(c)) && Step(Step(s, Grant(c)), Cancel(c)) == Goto(s, c, Cancelled)
  {
    var t := Step(s, Grant(c));
    var o := s.calls[c].pc.box;
    assert t == Goto(PutBox(s, o, AddPermits(s.boxes[o], 1)), c, Granted(o));
    assert Step(t, Cancel(c)).boxes == s.boxes;
    assert Step(t, Cancel(c)).calls == Goto(s, c, Cancelled).calls;
  }
}
