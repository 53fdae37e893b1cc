/** The send path as the code runs it: one method per atomic action, and `try_send`, `send`, `push`
    and the drain loop composed from them with arbitrary interference in between. Every method
    extends `trace`, the schedule of the transition system it has carried out, so everything
    proved of schedules holds of the code. */
module SendCode {
  import opened Wire
  import opened SendModel
  import opened SendInvariant
  import opened SendOrder
  import opened SendFates
  import opened SendTrace

  /** What a call tells its caller; `Pending` is a future that has not resolved yet. */
  datatype Answer = Ok | Err(error: SendError, message: Message) | Pending

  /** The outbox a call holds exists. */
  lemma BoxExists(es: seq<Event>, c: CallId)
    requires c in After(INITIAL, es).calls
    ensures var s := After(INITIAL, es); var pc := s.calls[c].pc;
      && (UsesBox(pc) || pc.Racing? ==> pc.box in s.boxes)
      && (UsesBox(pc) ==> s.installed == Some(pc.box))
      && (pc.Racing? || pc.Building? ==> !pc.parking)
  {
    Reachable(es);
    var s := After(INITIAL, es);
    assert CallShape(s, s.calls[c]);
  }

  /** A call sent back by a full channel finds the outbox it was sent back by. */
  lemma OutboxIsThere(es: seq<Event>, c: CallId)
    requires c in After(INITIAL, es).calls && After(INITIAL, es).calls[c].pc == Queueing(true)
    ensures After(INITIAL, es).installed.Some?
  {
    Reachable(es);
    assert CallShape(After(INITIAL, es), After(INITIAL, es).calls[c]);
  }

  /** There is always an identity for one more outbox. */
  lemma Bounded(keys: set<BoxId>) returns (n: BoxId)
    ensures forall k :: k in keys ==> k < n
  {
    if keys == {} {
      n := 0;
    } else {
      var k :| k in keys;
      var m := Bounded(keys - {k});
      n := if k < m then m else k + 1;
      assert forall j :: j in keys && j != k ==> j in keys - {k};
    }
  }

  lemma InlineEffect(s: State, c: CallId, outcome: Outcome)
    requires c in s.calls && s.calls[c].pc == Cleared && KernelMay(s, s.calls[c].message, outcome)
    ensures Enabled(s, InlineSend(c, outcome))
    ensures Apply(s, InlineSend(c, outcome)) == if outcome.Sent? then Inlined(s, c)
            else if outcome.WouldBlock? then Goto(s, c, Queueing(false)) else Goto(s, c, Returned(Closed))
  {
  }

  lemma PushEffect(s: State, c: CallId, o: BoxId)
    requires c in s.calls && s.calls[c].pc == Claimed(o) && o in s.boxes
    ensures Step(s, Push(c)) == if !ReceiverOpen(s.boxes[o]) then Goto(s, c, Refused(o, Closed))
                                else if !HasRoom(s.boxes[o]) then Goto(s, c, Refused(o, Full))
                                else Enqueue(s, c, o, s.boxes[o])
  {
  }

  lemma PermitEffect(s: State, c: CallId, o: BoxId)
    requires c in s.calls && s.calls[c].pc == Committed(o) && o in s.boxes
    ensures var b := AddPermits(s.boxes[o], -1);
      Step(s, PermitSend(c)) == if ReceiverOpen(b) then Enqueue(s, c, o, b) else Strand(s, c, o, b)
  {
  }

  /** A call told `Closed` whose build did not fail has something to blame. */
  lemma ClosedIsBlamed(es: seq<Event>, c: CallId)
    requires !BuildFailed(es, c) && c in After(INITIAL, es).calls
    ensures After(INITIAL, es).calls[c].pc == Returned(Closed) ==> Blame(After(INITIAL, es))
  {
    if After(INITIAL, es).calls[c].pc == Returned(Closed) {
      ClosedHasCause(es, c);
    }
  }

  /** A poll that found no slot. */
  lemma WaitedOn(actor: Actor, start: seq<Event>, es: seq<Event>, polls: seq<seq<Event>>, i: nat)
    requires i < |polls| && es == start + AllOthers(actor, polls[..i + 1]) && TakenAfter(es)
    requires WaitedThrough(actor, start, start + AllOthers(actor, polls[..i]), polls[..i])
    ensures WaitedThrough(actor, start, es, polls[..i + 1])
  {
    var more := polls[..i + 1];
    forall j | 0 < j <= |more|
      ensures TakenAfter(start + AllOthers(actor, more[..j]))
    {
      assert more[..j] == polls[..j];
      assert j <= i ==> polls[..i][..j] == polls[..j];
    }
  }

  /** The answer along this route. */
  function AnswerTo(route: Route, m: Message): Answer {
    if route.Refuse? then Err(route.error, m) else Ok
  }

  /** Run alone, the call has gone this route, with this answer, and left behind what it should. */
  predicate Went(route: Route, s: State, t: State, c: CallId, m: Message, answer: Answer) {
    answer == AnswerTo(route, m) && Left(route, s, t, Parcel(c, m))
  }

  predicate SentDirect(s: State, t: State, p: Parcel) {
    t == s.(calls := t.calls, wire := s.wire + [p], accepted := s.accepted + [p])
  }

  /** What the socket answers decides, if the backlog does not. */
  lemma InlineAlone(s: State, u: State, t: State, c: CallId, m: Message, full: bool, outcome: Outcome)
    requires Untouched(s, u) && Sendable(m) && Main(s).pending == 0
    requires outcome.Broken? <==> !u.peerOpen
    requires outcome.WouldBlock? <==> u.peerOpen && full && u.read < |u.wire|
    requires if outcome.Sent? then SentDirect(u, t, Parcel(c, m)) else Untouched(u, t)
    ensures GoesDirect(s, m, full) <==> !outcome.WouldBlock?
    ensures outcome.WouldBlock? ==> Untouched(s, t)
    ensures !outcome.WouldBlock? ==>
              Went(if s.peerOpen then Direct else Refuse(Closed), s, t, c, m, if outcome.Sent? then Ok else Err(Closed, m))
  {
  }

  predicate PushTried(s: State, t: State, o: BoxId, p: Parcel, refusal: Option<SendError>) {
    && o in s.boxes
    && var b := s.boxes[o];
    if ReceiverOpen(b) && HasRoom(b)
    then refusal.None? && t == s.(calls := t.calls, boxes := s.boxes[o := b.(queue := b.queue + [p])], accepted := s.accepted + [p])
    else refusal == Some(if ReceiverOpen(b) then Full else Closed) && Untouched(s, t)
  }

  /** With the claim counted: the message is in the channel, or the claim has been withdrawn. */
  predicate PushedOrNot(s: State, t: State, o: BoxId, p: Parcel, answer: Answer) {
    && s.installed == Some(o) && o in s.boxes
    && var b := s.boxes[o];
    if ReceiverOpen(b) && HasRoom(b)
    then answer.Ok? && t == s.(calls := t.calls, boxes := s.boxes[o := b.(queue := b.queue + [p])], accepted := s.accepted + [p])
    else answer == Err(if ReceiverOpen(b) then Full else Closed, p.message)
         && t == s.(calls := t.calls, boxes := s.boxes[o := b.(pending := b.pending - 1)])
  }

  lemma PushedAlone(s: State, claimed: State, t: State, c: CallId, o: BoxId, m: Message, answer: Answer)
    requires s.installed == Some(o) && o in s.boxes
    requires claimed == s.(calls := claimed.calls, boxes := s.boxes[o := AddPending(s.boxes[o], 1)])
    requires PushedOrNot(claimed, t, o, Parcel(c, m), answer)
    ensures Went(QueueRoute(s, true), s, t, c, m, answer)
  {
  }

  lemma BuiltAlone(s: State, built: State, t: State, o: BoxId)
    requires s.installed.None? && o !in s.boxes
    requires built == s.(calls := built.calls, boxes := s.boxes[o := NEW_BOX])
    requires t == built.(calls := t.calls, installed := Some(o))
    ensures SameOutbox(s, t)
  {
  }

  /** Through the outbox it got, the call goes the route it was to go. */
  lemma RoutedThrough(s: State, got: State, t: State, builds: bool, c: CallId, m: Message, answer: Answer)
    requires SameOutbox(s, got) && got.installed.Some? && (s.installed.Some? || builds)
    requires Went(QueueRoute(got, true), got, t, c, m, answer)
    ensures Went(QueueRoute(s, builds), s, t, c, m, answer)
  {
  }

  lemma RoutedDirect(s: State, t: State, m: Message, full: bool, builds: bool, c: CallId, answer: Answer)
    requires FitsBuffer(m) && GoesDirect(s, m, full)
    requires Went(if s.peerOpen then Direct else Refuse(Closed), s, t, c, m, answer)
    ensures Went(RouteOf(s, m, full, builds), s, t, c, m, answer)
  {
  }

  /** What the first tier does not settle takes the second's route, from the same state. */
  lemma RoutedOn(s: State, u: State, t: State, m: Message, full: bool, builds: bool, c: CallId, answer: Answer)
    requires FitsBuffer(m) && !GoesDirect(s, m, full) && Untouched(s, u)
    requires Went(QueueRoute(u, builds), u, t, c, m, answer)
    ensures Went(RouteOf(s, m, full, builds), s, t, c, m, answer)
  {
  }

  /** Starting a call changes no route. */
  lemma RoutedBegun(s: State, u: State, t: State, m: Message, full: bool, builds: bool, c: CallId, answer: Answer)
    requires Untouched(s, u) && Went(RouteOf(u, m, full, builds), u, t, c, m, answer)
    ensures Went(RouteOf(s, m, full, builds), s, t, c, m, answer)
  {
  }

  /** A turn that found nothing to take. */
  lemma IdleTurn(start: seq<Event>, at: seq<Event>, o: BoxId, plan: Plan)
    requires at == start + Others(DrainOf(o), plan.before)
    requires var s := After(INITIAL, at);
      o in s.boxes && s.boxes[o].drain.Receiving? && s.boxes[o].queue == [] && s.boxes[o].attached
    ensures TurnTaken(at, o, plan, Turn(|start|, |at|, |at|, None))
  {
    assert at[..|at|] == at;
    ToldNothing(DrainOf(o), Answers(Some(true), None), InPlan(plan), at);
  }

  /** A turn that sent what it took. */
  lemma BusyTurn(start: seq<Event>, at: seq<Event>, es: seq<Event>, o: BoxId, plan: Plan, place: nat)
    requires at == start + Others(DrainOf(o), plan.before)
    requires Told(DrainOf(o), Answers(Some(true), None), InPlan(plan), at, es)
    requires var s := After(INITIAL, at);
      && o in s.boxes && s.boxes[o].drain.Receiving? && s.boxes[o].queue != []
      && |s.wire| <= place < |After(INITIAL, es).wire| && After(INITIAL, es).wire[place] == s.boxes[o].queue[0]
    ensures TurnTaken(es, o, plan, Turn(|start|, |at|, |es|, Some(place)))
  {
    assert es[..|at|] == at && es[..|es|] == es;
    assert es[|start|..|at|] == Others(DrainOf(o), plan.before);
  }

  /** One `Ref`'s `RefInner`, every `Outbox` built for it, and the socket they send on. */
  class Endpoint {
    var calls: map<CallId, Call>
    var boxes: map<BoxId, Box>
    var installed: Option<BoxId>
    var wire: seq<Parcel>
    var read: nat
    var peerOpen: bool
    var held: bool
    var accepted: seq<Parcel>
    var failed: seq<Parcel>
    var stranded: seq<Parcel>
    ghost var trace: seq<Event>

    function Abs(): State
      reads this
    {
      State(calls, boxes, installed, wire, read, peerOpen, held, accepted, failed, stranded)
    }

    /** The fields are what the schedule so far leads to. */
    ghost predicate Valid()
      reads this
    {
      Abs() == After(INITIAL, trace)
    }

    constructor ()
      ensures Valid() && Abs() == INITIAL && trace == []
    {
      calls, boxes, installed, wire, read := map[], map[], None, [], 0;
      peerOpen, held, accepted, failed, stranded := true, true, [], [], [];
      trace := [];
    }

    /** Is call `c` at the given program counter? */
    predicate At(c: CallId, pc: Pc)
      reads this
    {
      c in calls && calls[c].pc == pc
    }

    /** The schedule went on by `e`, which could be taken, and by nothing else. */
    ghost predicate Did(e: Event, earlier: seq<Event>)
      reads this
    {
      Valid() && trace == earlier + [e] && Enabled(After(INITIAL, earlier), e)
    }

    ghost method Record(e: Event, before: State)
      requires before == After(INITIAL, trace) && Enabled(before, e) && Abs() == Apply(before, e)
      modifies this`trace
      ensures Did(e, old(trace))
    {
      AfterSnoc(INITIAL, trace, e);
      trace := trace + [e];
    }

    /** A step of the actor's that was just taken. */
    lemma Stepped(actor: Actor, told: Answers, asked: iset<Event>, start: seq<Event>, mid: seq<Event>, e: Event)
      requires Did(e, mid) && Told(actor, told, asked, start, mid) && AsTold(actor, told, e)
      ensures Told(actor, told, asked, start, trace)
    {
      ToldStep(actor, told, asked, start, mid, e);
    }

    method MoveTo(c: CallId, pc: Pc)
      requires c in calls
      modifies this`calls
      ensures calls == old(calls)[c := old(calls)[c].(pc := pc)]
    {
      calls := calls[c := calls[c].(pc := pc)];
    }

    method Become(s: State)
      modifies this
      ensures Abs() == s && trace == old(trace)
    {
      calls, boxes, installed, wire, read := s.calls, s.boxes, s.installed, s.wire, s.read;
      peerOpen, held, accepted, failed, stranded := s.peerOpen, s.held, s.accepted, s.failed, s.stranded;
    }

    /** Another actor's step, if it can be taken. */
    method Other(e: Event)
      requires Valid()
      modifies this
      ensures Valid() && trace == old(trace) + [e] && Abs() == Step(old(Abs()), e)
    {
      AfterSnoc(INITIAL, trace, e);
      Become(Step(Abs(), e));
      trace := trace + [e];
    }

    /** Others run, as asked, and nothing else happens. */
    method Interfere(actor: Actor, others: seq<Event>)
      requires Valid()
      modifies this
      ensures Valid() && trace == old(trace) + Others(actor, others) && Undisturbed(actor, old(Abs()), Abs())
      ensures others == [] ==> Abs() == old(Abs())
    {
      ghost var start := Abs();
      for i := 0 to |others|
        invariant Valid() && trace == old(trace) + Others(actor, others[..i]) && Undisturbed(actor, start, Abs())
        invariant i == 0 ==> Abs() == start
      {
        OthersSnoc(actor, others, i);
        if !Own(actor, others[i]) {
          ForeignStep(actor, Abs(), others[i]);
          Other(others[i]);
        }
      }
      assert others[..|others|] == others;
    }

    // ---- Atomic actions of a call ----

    method Start(c: CallId, m: Message, waits: bool)
      requires Valid() && held && c !in calls
      modifies this
      ensures Did(Begin(c, m, waits), old(trace))
      ensures c in calls && calls[c].message == m && calls[c].waits == waits && Untouched(old(Abs()), Abs())
      ensures calls[c].pc == if FitsBuffer(m) then Entered else Returned(TooLarge)
    {
      ghost var before := Abs();
      calls := calls[c := Call(m, waits, |accepted|, if FitsBuffer(m) then Entered else Returned(TooLarge))];
      Record(Begin(c, m, waits), before);
    }

    /** `outbox.get()` in `try_send`. */
    method LookForOutboxAction(c: CallId) returns (o: Option<BoxId>)
      requires Valid() && At(c, Entered)
      modifies this
      ensures Did(LookForOutbox(c), old(trace))
      ensures o == installed && Untouched(old(Abs()), Abs())
      ensures c in calls && calls[c] == old(calls)[c].(pc := calls[c].pc)
      ensures calls[c].pc == if o.Some? then Checking(o.value) else AfterCheck(calls[c].message, false)
    {
      ghost var before := Abs();
      o := installed;
      MoveTo(c, if o.Some? then Checking(o.value) else AfterCheck(calls[c].message, false));
      Record(LookForOutbox(c), before);
    }

    /** `Outbox::is_backed_up`. */
    method IsBackedUp(c: CallId, o: BoxId) returns (backedUp: bool)
      requires Valid() && At(c, Checking(o)) && o in boxes
      modifies this
      ensures Did(LoadPending(c), old(trace))
      ensures backedUp == (old(boxes)[o].pending != 0) && Untouched(old(Abs()), Abs())
      ensures c in calls && calls[c] == old(calls)[c].(pc := AfterCheck(old(calls)[c].message, backedUp))
    {
      ghost var before := Abs();
      backedUp := boxes[o].pending != 0;
      MoveTo(c, AfterCheck(calls[c].message, backedUp));
      Record(LoadPending(c), before);
    }

    /** `wire::send_now` from the fast path; `full` is whether the kernel finds no room. */
    method SendNow(c: CallId, full: bool) returns (outcome: Outcome)
      requires Valid() && At(c, Cleared)
      modifies this
      ensures Did(InlineSend(c, outcome), old(trace))
      ensures outcome.Broken? <==> !old(peerOpen) || !Sendable(old(calls)[c].message)
      ensures c in calls && calls[c] == old(calls)[c].(pc := calls[c].pc)
      ensures outcome.WouldBlock? <==> old(peerOpen) && Sendable(old(calls)[c].message) && full && read < |old(wire)|
      ensures outcome.Sent? ==> calls[c].pc == Accepted
      ensures if outcome.Sent? then SentDirect(old(Abs()), Abs(), Parcel(c, calls[c].message)) else Untouched(old(Abs()), Abs())
      ensures outcome.WouldBlock? ==> calls[c].pc == Queueing(false)
      ensures outcome.Broken? ==> calls[c].pc == Returned(Closed)
    {
      ghost var before := Abs();
      var p := Parcel(c, calls[c].message);
      if !peerOpen || !Sendable(p.message) {
        outcome := Broken;
        MoveTo(c, Returned(Closed));
      } else if full && read < |wire| {
        outcome := WouldBlock;
        MoveTo(c, Queueing(false));
      } else {
        outcome := Sent;
        wire, accepted := wire + [p], accepted + [p];
        MoveTo(c, Accepted);
      }
      InlineEffect(before, c, outcome);
      Record(InlineSend(c, outcome), before);
    }

    /** The `get` in `RefInner::outbox`. */
    method GetOutboxAction(c: CallId, parking: bool) returns (o: Option<BoxId>)
      requires Valid() && At(c, Queueing(parking))
      modifies this
      ensures Did(GetOutbox(c), old(trace)) && o == installed && Untouched(old(Abs()), Abs())
      ensures c in calls && calls[c] == old(calls)[c].(pc := calls[c].pc)
      ensures calls[c].pc == if o.Some? then WithOutbox(o.value, parking) else Building(parking)
    {
      ghost var before := Abs();
      o := installed;
      MoveTo(c, if o.Some? then WithOutbox(o.value, parking) else Building(parking));
      Record(GetOutbox(c), before);
    }

    /** `Outbox::build`, which may fail. */
    method BuildAction(c: CallId, o: BoxId, built: bool)
      requires Valid() && At(c, Building(false)) && o !in boxes
      modifies this
      ensures Did(Build(c, o, built), old(trace))
      ensures c in calls && calls[c] == old(calls)[c].(pc := if built then Racing(o, false) else Returned(Closed))
      ensures Abs() == old(Abs()).(calls := calls, boxes := boxes)
      ensures boxes == if built then old(boxes)[o := NEW_BOX] else old(boxes)
    {
      ghost var before := Abs();
      if built {
        boxes := boxes[o := NEW_BOX];
        MoveTo(c, Racing(o, false));
      } else {
        MoveTo(c, Returned(Closed));
      }
      Record(Build(c, o, built), before);
    }

    /** `OnceLock::set`, whose loser's outbox is dropped, and the `get` after it. */
    method SetAndGet(c: CallId, o: BoxId) returns (chosen: BoxId)
      requires Valid() && At(c, Racing(o, false)) && o in boxes
      modifies this
      ensures Did(Install(c), old(trace))
      ensures installed == Some(chosen) && chosen == if old(installed).Some? then old(installed).value else o
      ensures c in calls && calls[c] == old(calls)[c].(pc := Pushing(chosen))
      ensures Abs() == old(Abs()).(calls := calls, boxes := boxes, installed := installed)
      ensures boxes == if old(installed).Some? then old(boxes)[o := old(boxes)[o].(attached := false)] else old(boxes)
    {
      ghost var before := Abs();
      if installed.Some? {
        boxes := boxes[o := boxes[o].(attached := false)];
      } else {
        installed := Some(o);
      }
      chosen := installed.value;
      MoveTo(c, Pushing(chosen));
      Record(Install(c), before);
    }

    /** `pending.fetch_add(1)` in `push`. */
    method FetchAdd(c: CallId, o: BoxId)
      requires Valid() && At(c, Pushing(o)) && o in boxes
      modifies this
      ensures Did(Claim(c), old(trace))
      ensures c in calls && calls[c] == old(calls)[c].(pc := Claimed(o))
      ensures Abs() == old(Abs()).(calls := calls, boxes := boxes)
      ensures boxes == old(boxes)[o := old(boxes)[o].(pending := old(boxes)[o].pending + 1)]
    {
      ghost var before := Abs();
      boxes := boxes[o := AddPending(boxes[o], 1)];
      MoveTo(c, Claimed(o));
      Record(Claim(c), before);
    }

    /** `mpsc::Sender::try_send`: closed before full, full before queued. */
    method ChannelTrySend(c: CallId, o: BoxId) returns (refusal: Option<SendError>)
      requires Valid() && At(c, Claimed(o)) && o in boxes
      modifies this
      ensures Did(Push(c), old(trace))
      ensures c in calls && calls[c] == old(calls)[c].(pc := if refusal.Some? then Refused(o, refusal.value) else Accepted)
      ensures refusal == Some(Closed) <==> !ReceiverOpen(old(boxes)[o])
      ensures refusal == Some(Full) <==> ReceiverOpen(old(boxes)[o]) && !HasRoom(old(boxes)[o])
      ensures refusal != Some(TooLarge)
      ensures PushTried(old(Abs()), Abs(), o, Parcel(c, old(calls)[c].message), refusal)
    {
      ghost var before := Abs();
      PushEffect(before, c, o);
      var p := Parcel(c, calls[c].message);
      if !ReceiverOpen(boxes[o]) {
        refusal := Some(Closed);
        MoveTo(c, Refused(o, Closed));
      } else if !HasRoom(boxes[o]) {
        refusal := Some(Full);
        MoveTo(c, Refused(o, Full));
      } else {
        refusal := None;
        boxes := boxes[o := boxes[o].(queue := boxes[o].queue + [p])];
        accepted := accepted + [p];
        MoveTo(c, Accepted);
      }
      Record(Push(c), before);
    }

    /** `pending.fetch_sub(1)` after a refused push. */
    method FetchSub(c: CallId, o: BoxId, error: SendError)
      requires Valid() && At(c, Refused(o, error)) && o in boxes
      modifies this
      ensures Did(Withdraw(c), old(trace))
      ensures c in calls
      ensures calls[c] == old(calls)[c].(pc := if error.Full? && old(calls)[c].waits then Queueing(true) else Returned(error))
      ensures Abs() == old(Abs()).(calls := calls, boxes := boxes)
      ensures boxes == old(boxes)[o := old(boxes)[o].(pending := old(boxes)[o].pending - 1)]
    {
      ghost var before := Abs();
      boxes := boxes[o := AddPending(boxes[o], -1)];
      MoveTo(c, if error.Full? && calls[c].waits then Queueing(true) else Returned(error));
      Record(Withdraw(c), before);
    }

    method GrantAction(c: CallId, o: BoxId)
      requires Valid() && At(c, Parked(o)) && o in boxes && ReceiverOpen(boxes[o]) && HasRoom(boxes[o])
      modifies this
      ensures Did(Grant(c), old(trace))
      ensures c in calls && calls[c] == old(calls)[c].(pc := Granted(o))
    {
      ghost var before := Abs();
      boxes := boxes[o := AddPermits(boxes[o], 1)];
      MoveTo(c, Granted(o));
      Record(Grant(c), before);
    }

    method RefuseReserve(c: CallId, o: BoxId)
      requires Valid() && At(c, Parked(o)) && o in boxes && !ReceiverOpen(boxes[o])
      modifies this
      ensures Did(ReserveClosed(c), old(trace))
      ensures c in calls && calls[c] == old(calls)[c].(pc := Returned(Closed))
    {
      ghost var before := Abs();
      MoveTo(c, Returned(Closed));
      Record(ReserveClosed(c), before);
    }

    /** `reserve()` resolving, if it can: a slot, or a closed channel. */
    method PollReserve(c: CallId, o: BoxId) returns (ready: bool)
      requires Valid() && At(c, Parked(o)) && o in boxes
      modifies this
      ensures Valid()
      ensures if !ready then trace == old(trace)
              else Did(if ReceiverOpen(old(boxes)[o]) then Grant(c) else ReserveClosed(c), old(trace))
      ensures ready <==> !ReceiverOpen(old(boxes)[o]) || HasRoom(old(boxes)[o])
      ensures c in calls
      ensures calls[c] == old(calls)[c].(pc := if !ready then Parked(o)
                                               else if ReceiverOpen(old(boxes)[o]) then Granted(o) else Returned(Closed))
      ensures !ready ==> Abs() == old(Abs())
    {
      ready := true;
      if !ReceiverOpen(boxes[o]) {
        RefuseReserve(c, o);
      } else if HasRoom(boxes[o]) {
        GrantAction(c, o);
      } else {
        ready := false;
        assert calls == calls[c := calls[c].(pc := Parked(o))];
      }
    }

    /** `pending.fetch_add(1)` in `Outbox::send`, with the slot in hand. */
    method CommitSlot(c: CallId, o: BoxId)
      requires Valid() && At(c, Granted(o)) && o in boxes
      modifies this
      ensures Did(Commit(c), old(trace))
      ensures c in calls && calls[c] == old(calls)[c].(pc := Committed(o))
    {
      ghost var before := Abs();
      boxes := boxes[o := AddPending(boxes[o], 1)];
      MoveTo(c, Committed(o));
      Record(Commit(c), before);
    }

    /** `permit.send`, which cannot fail: a message sent after the receiver went is lost. */
    method SendPermit(c: CallId, o: BoxId)
      requires Valid() && At(c, Committed(o)) && o in boxes
      modifies this
      ensures Did(PermitSend(c), old(trace))
      ensures c in calls && calls[c] == old(calls)[c].(pc := Accepted)
    {
      if ReceiverOpen(boxes[o]) {
        UsePermitSlot(c, o);
      } else {
        LosePermitSlot(c, o);
      }
    }

    method UsePermitSlot(c: CallId, o: BoxId)
      requires Valid() && At(c, Committed(o)) && o in boxes && ReceiverOpen(boxes[o])
      modifies this
      ensures Did(PermitSend(c), old(trace))
      ensures c in calls && calls[c] == old(calls)[c].(pc := Accepted)
    {
      ghost var before := Abs();
      PermitEffect(before, c, o);
      var p := Parcel(c, calls[c].message);
      var b := AddPermits(boxes[o], -1);
      boxes, accepted := boxes[o := b.(queue := b.queue + [p])], accepted + [p];
      MoveTo(c, Accepted);
      assert Abs() == Enqueue(before, c, o, b);
      Record(PermitSend(c), before);
    }

    /** The receiver went in the meantime. */
    method LosePermitSlot(c: CallId, o: BoxId)
      requires Valid() && At(c, Committed(o)) && o in boxes && !ReceiverOpen(boxes[o])
      modifies this
      ensures Did(PermitSend(c), old(trace))
      ensures c in calls && calls[c] == old(calls)[c].(pc := Accepted)
    {
      ghost var before := Abs();
      PermitEffect(before, c, o);
      var p := Parcel(c, calls[c].message);
      boxes, stranded, accepted := boxes[o := AddPermits(boxes[o], -1)], stranded + [p], accepted + [p];
      MoveTo(c, Accepted);
      Record(PermitSend(c), before);
    }

    // ---- The calls, composed ----

    /** Call `c` is still the one that was given `m`. */
    predicate Carries(c: CallId, m: Message, waits: bool)
      reads this
    {
      c in calls && calls[c].message == m && calls[c].waits == waits
    }

    /** The answer, the message in it and the call's record agree. */
    predicate Answered(c: CallId, m: Message, waits: bool, answer: Answer)
      reads this
    {
      && Carries(c, m, waits)
      && match answer
         case Ok => calls[c].pc == Accepted
         case Err(error, returned) =>
           returned == m && calls[c].pc == (if error.Full? && waits then Queueing(true) else Returned(error))
         case Pending => calls[c].pc.Parked?
    }

    /** `Outbox::push`. */
    method PushMessage(c: CallId, o: BoxId, m: Message, waits: bool, env: nat -> seq<Event>) returns (answer: Answer)
      requires Valid() && At(c, Pushing(o)) && Carries(c, m, waits)
      modifies this
      ensures Valid() && Told(Caller(c), UNASKED, Envs(env), old(trace), trace)
      ensures Answered(c, m, waits, answer) && !answer.Pending?
      ensures answer.Err? ==> !answer.error.TooLarge?
      ensures Silent(env) ==> Went(QueueRoute(old(Abs()), true), old(Abs()), Abs(), c, m, answer)
    {
      ghost var start, s := trace, Abs();
      ToldNothing(Caller(c), UNASKED, Envs(env), start);
      Pause(c, UNASKED, start, env(0), env, 0);
      BoxExists(trace, c);
      ghost var paused := trace;
      FetchAdd(c, o);
      Stepped(Caller(c), UNASKED, Envs(env), start, paused, Claim(c));
      ghost var claimed, u := trace, Abs();
      answer := PushClaimed(c, o, m, waits, env);
      ToldJoin(Caller(c), UNASKED, UNASKED, UNASKED, Envs(env), Envs(env), Envs(env), start, claimed, trace);
      if Silent(env) {
        PushedAlone(s, u, Abs(), c, o, m, answer);
      }
    }

    /** The rest of it, once counted. */
    method PushClaimed(c: CallId, o: BoxId, m: Message, waits: bool, env: nat -> seq<Event>) returns (answer: Answer)
      requires Valid() && At(c, Claimed(o)) && Carries(c, m, waits)
      modifies this
      ensures Valid() && Told(Caller(c), UNASKED, Envs(env), old(trace), trace)
      ensures Answered(c, m, waits, answer) && !answer.Pending?
      ensures answer.Err? ==> !answer.error.TooLarge?
      ensures Silent(env) ==> PushedOrNot(old(Abs()), Abs(), o, Parcel(c, m), answer)
    {
      ghost var start := trace;
      var refusal := PushNow(c, o, m, waits, env);
      if refusal.None? {
        return Ok;
      }
      ghost var refused := trace;
      answer := WithdrawClaim(c, o, refusal.value, m, waits, env);
      ToldJoin(Caller(c), UNASKED, UNASKED, UNASKED, Envs(env), Envs(env), Envs(env), start, refused, trace);
    }

    /** The push itself, some time after the claim. */
    method PushNow(c: CallId, o: BoxId, m: Message, waits: bool, env: nat -> seq<Event>) returns (refusal: Option<SendError>)
      requires Valid() && At(c, Claimed(o)) && Carries(c, m, waits)
      modifies this
      ensures Valid() && Told(Caller(c), UNASKED, Envs(env), old(trace), trace) && Carries(c, m, waits)
      ensures At(c, if refusal.Some? then Refused(o, refusal.value) else Accepted) && refusal != Some(TooLarge)
      ensures Silent(env) ==> old(installed) == Some(o) && PushTried(old(Abs()), Abs(), o, Parcel(c, m), refusal)
    {
      ghost var start := trace;
      ToldNothing(Caller(c), UNASKED, Envs(env), start);
      Pause(c, UNASKED, start, env(1), env, 1);
      BoxExists(trace, c);
      ghost var paused := trace;
      refusal := ChannelTrySend(c, o);
      Stepped(Caller(c), UNASKED, Envs(env), start, paused, Push(c));
    }

    /** Others run, at the `n`th point where they can. */
    method Pause(c: CallId, ghost told: Answers, ghost start: seq<Event>, others: seq<Event>,
                 ghost env: nat -> seq<Event>, ghost n: nat)
      requires Valid() && others == env(n) && Told(Caller(c), told, Envs(env), start, trace)
      modifies this
      ensures Valid() && trace == old(trace) + Others(Caller(c), others) && Undisturbed(Caller(c), old(Abs()), Abs())
      ensures Told(Caller(c), told, Envs(env), start, trace)
      ensures Silent(env) ==> Abs() == old(Abs())
    {
      EnvAt(env, n);
      ToldOthers(Caller(c), told, Envs(env), start, trace, others);
      Interfere(Caller(c), others);
    }

    /** The refused half of `push`. */
    method WithdrawClaim(c: CallId, o: BoxId, error: SendError, m: Message, waits: bool, env: nat -> seq<Event>)
      returns (answer: Answer)
      requires Valid() && At(c, Refused(o, error)) && Carries(c, m, waits)
      modifies this
      ensures Valid() && Told(Caller(c), UNASKED, Envs(env), old(trace), trace)
      ensures Answered(c, m, waits, answer) && answer == Err(error, m)
      ensures Silent(env) ==> Abs() == old(Abs()).(calls := calls, boxes := boxes) && o in old(boxes)
                              && boxes == old(boxes)[o := old(boxes)[o].(pending := old(boxes)[o].pending - 1)]
    {
      ghost var start := trace;
      ToldNothing(Caller(c), UNASKED, Envs(env), start);
      Pause(c, UNASKED, start, env(2), env, 2);
      BoxExists(trace, c);
      ghost var paused := trace;
      FetchSub(c, o, error);
      Stepped(Caller(c), UNASKED, Envs(env), start, paused, Withdraw(c));
      return Err(error, m);
    }

    /** `RefInner::outbox`, building one if there is none yet. Only a build that fails leaves the caller
        without one. */
    method GetOrBuild(c: CallId, m: Message, waits: bool, builds: bool, env: nat -> seq<Event>)
      returns (o: Option<BoxId>)
      requires Valid() && At(c, Queueing(false)) && Carries(c, m, waits)
      modifies this
      ensures Valid() && Told(Caller(c), Answers(None, Some(builds)), Envs(env), old(trace), trace) && Carries(c, m, waits)
      ensures o.Some? ==> At(c, Pushing(o.value)) && installed == o
      ensures o.None? ==> At(c, Returned(Closed)) && !builds
      ensures Silent(env) ==>
                && (o.None? <==> old(installed).None? && !builds) && SameOutbox(old(Abs()), Abs())
                && (o.None? ==> installed == old(installed))
    {
      ghost var start := trace;
      ghost var told := Answers(None, Some(builds));
      ToldNothing(Caller(c), told, Envs(env), start);
      Pause(c, told, start, env(2), env, 2);
      ghost var paused := trace;
      o := GetOutboxAction(c, false);
      Stepped(Caller(c), told, Envs(env), start, paused, GetOutbox(c));
      if o.None? {
        ghost var missed := trace;
        o := BuildAndInstall(c, m, waits, builds, env);
        ToldJoin(Caller(c), told, told, told, Envs(env), Envs(env), Envs(env), start, missed, trace);
      }
    }

    /** The rest of it: builds an outbox, races to install it, and uses whichever won. */
    method BuildAndInstall(c: CallId, m: Message, waits: bool, builds: bool, env: nat -> seq<Event>)
      returns (o: Option<BoxId>)
      requires Valid() && At(c, Building(false)) && Carries(c, m, waits)
      modifies this
      ensures Valid() && Told(Caller(c), Answers(None, Some(builds)), Envs(env), old(trace), trace) && Carries(c, m, waits)
      ensures o.Some? ==> At(c, Pushing(o.value)) && installed == o
      ensures o.None? ==> At(c, Returned(Closed))
      ensures o.None? <==> !builds
      ensures Silent(env) && old(installed).None? ==>
                SameOutbox(old(Abs()), Abs()) && (o.None? ==> installed == old(installed))
    {
      ghost var start, s := trace, Abs();
      ghost var told := Answers(None, Some(builds));
      ToldNothing(Caller(c), told, Envs(env), start);
      Pause(c, told, start, env(0), env, 0);
      ghost var bound := Bounded(boxes.Keys);
      assert bound !in boxes;
      var own: BoxId :| own !in boxes;
      ghost var paused := trace;
      BuildAction(c, own, builds);
      Stepped(Caller(c), told, Envs(env), start, paused, Build(c, own, builds));
      if !builds {
        return None;
      }
      ghost var built, u := trace, Abs();
      var chosen := Race(c, own, m, waits, env);
      ToldJoin(Caller(c), told, told, told, Envs(env), Envs(env), Envs(env), start, built, trace);
      if Silent(env) && s.installed.None? {
        BuiltAlone(s, u, Abs(), own);
      }
      return Some(chosen);
    }

    /** `OnceLock::set` and the `get` after it, some time later. */
    method Race(c: CallId, own: BoxId, m: Message, waits: bool, env: nat -> seq<Event>) returns (chosen: BoxId)
      requires Valid() && At(c, Racing(own, false)) && Carries(c, m, waits)
      modifies this
      ensures Valid() && Told(Caller(c), Answers(None, Some(true)), Envs(env), old(trace), trace) && Carries(c, m, waits)
      ensures At(c, Pushing(chosen)) && installed == Some(chosen)
      ensures Silent(env) && old(installed).None? ==> Abs() == old(Abs()).(calls := calls, installed := Some(own))
    {
      ghost var start := trace;
      ghost var told := Answers(None, Some(true));
      ToldNothing(Caller(c), told, Envs(env), start);
      Pause(c, told, start, env(1), env, 1);
      BoxExists(trace, c);
      ghost var paused := trace;
      chosen := SetAndGet(c, own);
      Stepped(Caller(c), told, Envs(env), start, paused, Install(c));
    }

    /** `Ref::try_send`; with `waits`, as the first half of `Ref::send`. `full` says what the
        socket would answer, `builds` whether an outbox can be built, and `env` what everyone else
        does at each point where they can. */
    method TrySend(c: CallId, m: Message, waits: bool, full: bool, builds: bool, env: nat -> seq<Event>)
      returns (answer: Answer)
      requires Valid() && held && c !in calls
      modifies this
      ensures Valid() && old(trace) < trace
      ensures trace[|old(trace)|] == Begin(c, m, waits)
      ensures Told(Caller(c), Answers(Some(full), Some(builds)), Envs(env), old(trace), trace)
      ensures Answered(c, m, waits, answer) && !answer.Pending?
      ensures answer == Err(TooLarge, m) <==> !FitsBuffer(m)
      ensures builds ==> !BuildFailed(trace, c)
      ensures builds && answer == Err(Closed, m) ==> Blame(Abs())
      ensures Silent(env) ==> Went(RouteOf(old(Abs()), m, full, builds), old(Abs()), Abs(), c, m, answer)
    {
      ghost var start, s := trace, Abs();
      ghost var told := Answers(Some(full), Some(builds));
      ToldNothing(Caller(c), told, Envs(env), start);
      Start(c, m, waits);
      Stepped(Caller(c), told, Envs(env), start, start, Begin(c, m, waits));
      if |m.data| > MAX_MESSAGE_SIZE {
        answer := Err(TooLarge, m);
      } else {
        ghost var begun, u := trace, Abs();
        answer := SendSized(c, m, waits, full, builds, env);
        ToldJoin(Caller(c), told, told, told, Envs(env), Envs(env), Envs(env), start, begun, trace);
        if Silent(env) {
          RoutedBegun(s, u, Abs(), m, full, builds, c, answer);
        }
      }
      if builds {
        ToldBuilds(c, told, Envs(env), start, trace);
        ClosedIsBlamed(trace, c);
      }
    }

    /** `try_send` past its size check. */
    method SendSized(c: CallId, m: Message, waits: bool, full: bool, builds: bool, env: nat -> seq<Event>)
      returns (answer: Answer)
      requires Valid() && At(c, Entered) && Carries(c, m, waits) && FitsBuffer(m)
      modifies this
      ensures Valid() && Told(Caller(c), Answers(Some(full), Some(builds)), Envs(env), old(trace), trace)
      ensures Answered(c, m, waits, answer) && !answer.Pending?
      ensures answer.Err? ==> !answer.error.TooLarge?
      ensures Silent(env) ==> Went(RouteOf(old(Abs()), m, full, builds), old(Abs()), Abs(), c, m, answer)
    {
      ghost var start, s := trace, Abs();
      ghost var told := Answers(Some(full), Some(builds));
      var settled := TryInline(c, m, waits, full, env);
      if settled.Some? {
        ToldJoin(Caller(c), Answers(Some(full), None), told, told, Envs(env), Envs(env), Envs(env), start, trace, trace);
        if Silent(env) {
          RoutedDirect(s, Abs(), m, full, builds, c, settled.value);
        }
        return settled.value;
      }
      ghost var queueing, u := trace, Abs();
      var late := (n: nat) => env(n + 3);
      EnvsWithin(late, env, 3);
      answer := FallBack(c, m, waits, builds, late);
      ToldJoin(Caller(c), Answers(Some(full), None), Answers(None, Some(builds)), told, Envs(env), Envs(late), Envs(env),
               start, queueing, trace);
      if Silent(env) {
        RoutedOn(s, u, Abs(), m, full, builds, c, answer);
      }
    }

    /** The first tier of `try_send`: `None` leaves the message for the queue. */
    method TryInline(c: CallId, m: Message, waits: bool, full: bool, env: nat -> seq<Event>)
      returns (settled: Option<Answer>)
      requires Valid() && At(c, Entered) && Carries(c, m, waits)
      modifies this
      ensures Valid() && Told(Caller(c), Answers(Some(full), None), Envs(env), old(trace), trace) && Carries(c, m, waits)
      ensures settled.None? ==> At(c, Queueing(false))
      ensures settled.Some? ==> settled.value == Ok || settled.value == Err(Closed, m)
      ensures settled.Some? ==> Answered(c, m, waits, settled.value)
      ensures full && settled == Some(Ok) ==> |wire| <= read + 1
      ensures Silent(env) ==>
                if !GoesDirect(old(Abs()), m, full) then settled.None? && Untouched(old(Abs()), Abs())
                else settled.Some?
                     && Went(if old(peerOpen) then Direct else Refuse(Closed), old(Abs()), Abs(), c, m, settled.value)
    {
      ghost var start, s := trace, Abs();
      ghost var told := Answers(Some(full), None);
      var inlineOk := CheckBacklog(c, m, waits, env);
      ghost var checked, u := trace, Abs();
      if !inlineOk {
        ToldJoin(Caller(c), UNASKED, UNASKED, told, Envs(env), Envs(env), Envs(env), start, trace, trace);
        return None;
      }
      var outcome := SendCleared(c, m, waits, full, env);
      ToldJoin(Caller(c), UNASKED, told, told, Envs(env), Envs(env), Envs(env), start, checked, trace);
      if Silent(env) {
        InlineAlone(s, u, Abs(), c, m, full, outcome);
      }
      match outcome {
        case Sent => return Some(Ok);
        case WouldBlock => return None;
        case Broken => return Some(Err(Closed, m));
      }
    }

    /** The inline `sendmsg`, some time after the fast path was found open. */
    method SendCleared(c: CallId, m: Message, waits: bool, full: bool, env: nat -> seq<Event>) returns (outcome: Outcome)
      requires Valid() && At(c, Cleared) && Carries(c, m, waits) && Sendable(m)
      modifies this
      ensures Valid() && Told(Caller(c), Answers(Some(full), None), Envs(env), old(trace), trace) && Carries(c, m, waits)
      ensures At(c, if outcome.Sent? then Accepted else if outcome.WouldBlock? then Queueing(false) else Returned(Closed))
      ensures full && outcome.Sent? ==> |wire| <= read + 1
      ensures Silent(env) ==>
                && (outcome.Broken? <==> !old(peerOpen))
                && (outcome.WouldBlock? <==> old(peerOpen) && full && old(read) < |old(wire)|)
                && if outcome.Sent? then SentDirect(old(Abs()), Abs(), Parcel(c, m)) else Untouched(old(Abs()), Abs())
    {
      ghost var start := trace;
      ghost var told := Answers(Some(full), None);
      ToldNothing(Caller(c), told, Envs(env), start);
      Pause(c, told, start, env(2), env, 2);
      ghost var paused := trace;
      outcome := SendNow(c, full);
      Stepped(Caller(c), told, Envs(env), start, paused, InlineSend(c, outcome));
    }

    /** The second tier of `try_send`: the outbox, built now if this is the first need of it. */
    method FallBack(c: CallId, m: Message, waits: bool, builds: bool, env: nat -> seq<Event>) returns (answer: Answer)
      requires Valid() && At(c, Queueing(false)) && Carries(c, m, waits)
      modifies this
      ensures Valid() && Told(Caller(c), Answers(None, Some(builds)), Envs(env), old(trace), trace)
      ensures Answered(c, m, waits, answer) && !answer.Pending?
      ensures answer.Err? ==> !answer.error.TooLarge?
      ensures Silent(env) ==> Went(QueueRoute(old(Abs()), builds), old(Abs()), Abs(), c, m, answer)
    {
      ghost var start, s := trace, Abs();
      ghost var told := Answers(None, Some(builds));
      var o := GetOrBuild(c, m, waits, builds, env);
      if o.None? {
        return Err(Closed, m);
      }
      ghost var got, u := trace, Abs();
      var late := (n: nat) => env(n + 3);
      EnvsWithin(late, env, 3);
      answer := PushMessage(c, o.value, m, waits, late);
      ToldJoin(Caller(c), told, UNASKED, told, Envs(env), Envs(late), Envs(env), start, got, trace);
      if Silent(env) {
        RoutedThrough(s, u, Abs(), builds, c, m, answer);
      }
    }

    /** Is the fast path open for this message? */
    method CheckBacklog(c: CallId, m: Message, waits: bool, env: nat -> seq<Event>) returns (inlineOk: bool)
      requires Valid() && At(c, Entered) && Carries(c, m, waits)
      modifies this
      ensures Valid() && Told(Caller(c), UNASKED, Envs(env), old(trace), trace) && Carries(c, m, waits)
      ensures inlineOk ==> At(c, Cleared) && Sendable(m)
      ensures !inlineOk ==> At(c, Queueing(false))
      ensures Silent(env) ==>
                Untouched(old(Abs()), Abs()) && (inlineOk <==> Sendable(m) && Main(old(Abs())).pending == 0)
    {
      ghost var start := trace;
      ToldNothing(Caller(c), UNASKED, Envs(env), start);
      Pause(c, UNASKED, start, env(0), env, 0);
      ghost var entered := trace;
      var outbox := LookForOutboxAction(c);
      Stepped(Caller(c), UNASKED, Envs(env), start, entered, LookForOutbox(c));
      var backedUp := false;
      if outbox.Some? {
        ghost var looked := trace;
        backedUp := LoadBacklog(c, outbox.value, m, waits, env);
        ToldJoin(Caller(c), UNASKED, UNASKED, UNASKED, Envs(env), Envs(env), Envs(env), start, looked, trace);
      }
      inlineOk := |m.fds| <= MAX_FDS && !backedUp;
    }

    /** `is_backed_up`, some time after the outbox was found. */
    method LoadBacklog(c: CallId, o: BoxId, m: Message, waits: bool, env: nat -> seq<Event>) returns (backedUp: bool)
      requires Valid() && At(c, Checking(o)) && Carries(c, m, waits)
      modifies this
      ensures Valid() && Told(Caller(c), UNASKED, Envs(env), old(trace), trace) && Carries(c, m, waits)
      ensures At(c, AfterCheck(m, backedUp))
      ensures Silent(env) ==> Untouched(old(Abs()), Abs()) && (backedUp <==> Main(old(Abs())).pending != 0)
    {
      ghost var start := trace;
      ToldNothing(Caller(c), UNASKED, Envs(env), start);
      Pause(c, UNASKED, start, env(1), env, 1);
      BoxExists(trace, c);
      ghost var paused := trace;
      backedUp := IsBackedUp(c, o);
      Stepped(Caller(c), UNASKED, Envs(env), start, paused, LoadPending(c));
    }

    /** `Outbox::send`: polled as long as `polls` lasts, and still parked if it runs out. */
    method OutboxSend(c: CallId, o: BoxId, m: Message, polls: seq<seq<Event>>, env: nat -> seq<Event>)
      returns (answer: Answer)
      requires Valid() && At(c, Parked(o)) && Carries(c, m, true)
      modifies this
      ensures Valid() && Told(Caller(c), UNASKED, Envs(env) + Polled(polls), old(trace), trace)
      ensures Answered(c, m, true, answer)
      ensures answer.Err? ==> answer.error == Closed
      ensures answer.Pending? ==> At(c, Parked(o)) && WaitedThrough(Caller(c), old(trace), trace, polls)
    {
      ghost var start := trace;
      var ready := AwaitSlot(c, o, m, polls);
      if !ready {
        ToldJoin(Caller(c), UNASKED, UNASKED, UNASKED, Polled(polls), Polled(polls), Envs(env) + Polled(polls), start, trace, trace);
        return Pending;
      }
      if calls[c].pc.Returned? {
        ToldJoin(Caller(c), UNASKED, UNASKED, UNASKED, Polled(polls), Polled(polls), Envs(env) + Polled(polls), start, trace, trace);
        return Err(Closed, m);
      }
      ghost var granted := trace;
      SendGranted(c, o, m, env);
      ToldJoin(Caller(c), UNASKED, UNASKED, UNASKED, Polled(polls), Envs(env), Envs(env) + Polled(polls), start, granted, trace);
      return Ok;
    }

    /** `reserve().await`. */
    method AwaitSlot(c: CallId, o: BoxId, m: Message, polls: seq<seq<Event>>) returns (ready: bool)
      requires Valid() && At(c, Parked(o)) && Carries(c, m, true)
      modifies this
      ensures Valid() && Told(Caller(c), UNASKED, Polled(polls), old(trace), trace) && Carries(c, m, true)
      ensures ready ==> At(c, Granted(o)) || At(c, Returned(Closed))
      ensures !ready ==> At(c, Parked(o)) && WaitedThrough(Caller(c), old(trace), trace, polls)
    {
      ghost var start := trace;
      ToldNothing(Caller(c), UNASKED, Polled(polls), start);
      for i := 0 to |polls|
        invariant Valid() && At(c, Parked(o)) && Carries(c, m, true)
        invariant Told(Caller(c), UNASKED, Polled(polls), start, trace)
        invariant WaitedThrough(Caller(c), start, trace, polls[..i])
      {
        ready := PollOnce(c, o, m, polls, i, start);
        if ready {
          return;
        }
      }
      assert polls[..|polls|] == polls;
      ready := false;
    }

    /** One poll. */
    method PollOnce(c: CallId, o: BoxId, m: Message, polls: seq<seq<Event>>, i: nat, ghost start: seq<Event>)
      returns (ready: bool)
      requires Valid() && At(c, Parked(o)) && Carries(c, m, true) && i < |polls|
      requires Told(Caller(c), UNASKED, Polled(polls), start, trace)
      requires WaitedThrough(Caller(c), start, trace, polls[..i])
      modifies this
      ensures Valid() && Carries(c, m, true) && Told(Caller(c), UNASKED, Polled(polls), start, trace)
      ensures ready ==> At(c, Granted(o)) || At(c, Returned(Closed))
      ensures !ready ==> At(c, Parked(o)) && WaitedThrough(Caller(c), start, trace, polls[..i + 1])
    {
      ToldOthers(Caller(c), UNASKED, Polled(polls), start, trace, polls[i]);
      AllOthersSnoc(Caller(c), polls, i);
      Interfere(Caller(c), polls[i]);
      BoxExists(trace, c);
      ghost var polled := trace;
      ready := PollReserve(c, o);
      if ready {
        Stepped(Caller(c), UNASKED, Polled(polls), start, polled, if calls[c].pc.Granted? then Grant(c) else ReserveClosed(c));
      } else {
        WaitedOn(Caller(c), start, trace, polls, i);
      }
    }

    /** With a slot in hand: counts it, and sends. */
    method SendGranted(c: CallId, o: BoxId, m: Message, env: nat -> seq<Event>)
      requires Valid() && At(c, Granted(o)) && Carries(c, m, true)
      modifies this
      ensures Valid() && Told(Caller(c), UNASKED, Envs(env), old(trace), trace)
      ensures Carries(c, m, true) && At(c, Accepted)
    {
      ghost var start := trace;
      CountSlot(c, o, m, env);
      ghost var counted := trace;
      UsePermit(c, o, m, env);
      ToldJoin(Caller(c), UNASKED, UNASKED, UNASKED, Envs(env), Envs(env), Envs(env), start, counted, trace);
    }

    method CountSlot(c: CallId, o: BoxId, m: Message, env: nat -> seq<Event>)
      requires Valid() && At(c, Granted(o)) && Carries(c, m, true)
      modifies this
      ensures Valid() && Told(Caller(c), UNASKED, Envs(env), old(trace), trace)
      ensures Carries(c, m, true) && At(c, Committed(o))
    {
      ghost var start := trace;
      ToldNothing(Caller(c), UNASKED, Envs(env), start);
      Pause(c, UNASKED, start, env(0), env, 0);
      BoxExists(trace, c);
      ghost var paused := trace;
      CommitSlot(c, o);
      Stepped(Caller(c), UNASKED, Envs(env), start, paused, Commit(c));
    }

    method UsePermit(c: CallId, o: BoxId, m: Message, env: nat -> seq<Event>)
      requires Valid() && At(c, Committed(o)) && Carries(c, m, true)
      modifies this
      ensures Valid() && Told(Caller(c), UNASKED, Envs(env), old(trace), trace)
      ensures Carries(c, m, true) && At(c, Accepted)
    {
      ghost var start := trace;
      ToldNothing(Caller(c), UNASKED, Envs(env), start);
      Pause(c, UNASKED, start, env(1), env, 1);
      BoxExists(trace, c);
      ghost var paused := trace;
      SendPermit(c, o);
      Stepped(Caller(c), UNASKED, Envs(env), start, paused, PermitSend(c));
    }

    /** The second half of `Ref::send`, once `try_send` has found the queue full. */
    method AwaitRoom(c: CallId, m: Message, polls: seq<seq<Event>>, env: nat -> seq<Event>)
      returns (answer: Answer, ghost parked: seq<Event>)
      requires Valid() && At(c, Queueing(true)) && Carries(c, m, true)
      modifies this
      ensures Valid() && Told(Caller(c), UNASKED, Envs(env) + Polled(polls), old(trace), trace)
      ensures Answered(c, m, true, answer) && (answer.Err? ==> answer.error == Closed)
      ensures parked == old(trace) + Others(Caller(c), env(0)) + [GetOutbox(c)]
      ensures answer.Pending? ==> WaitedThrough(Caller(c), parked, trace, polls)
    {
      ghost var start := trace;
      var o := FindOutbox(c, m, env);
      parked := trace;
      var late := (n: nat) => env(n + 1);
      EnvsWithin(late, env, 1);
      answer := OutboxSend(c, o, m, polls, late);
      ToldJoin(Caller(c), UNASKED, UNASKED, UNASKED, Envs(env), Envs(late) + Polled(polls), Envs(env) + Polled(polls),
               start, parked, trace);
    }

    /** The second `get`, which finds the outbox the first half was turned away by. */
    method FindOutbox(c: CallId, m: Message, env: nat -> seq<Event>) returns (o: BoxId)
      requires Valid() && At(c, Queueing(true)) && Carries(c, m, true)
      modifies this
      ensures Valid() && Told(Caller(c), UNASKED, Envs(env), old(trace), trace)
      ensures At(c, Parked(o)) && Carries(c, m, true)
      ensures trace == old(trace) + Others(Caller(c), env(0)) + [GetOutbox(c)]
    {
      ghost var start := trace;
      ToldNothing(Caller(c), UNASKED, Envs(env), start);
      Pause(c, UNASKED, start, env(0), env, 0);
      OutboxIsThere(trace, c);
      assert Abs().installed.Some? && installed.Some?;
      ghost var paused := trace;
      var found := GetOutboxAction(c, true);
      o := found.value;
      Stepped(Caller(c), UNASKED, Envs(env), start, paused, GetOutbox(c));
    }

    /** `Ref::send`: `try_send`, then a wait for room if that found none. If it is still waiting it has
        been since the run `parked`, through all of `polls`, none of which found a slot. */
    method Send(c: CallId, m: Message, full: bool, builds: bool, polls: seq<seq<Event>>, env: nat -> seq<Event>)
      returns (answer: Answer, ghost parked: seq<Event>)
      requires Valid() && held && c !in calls
      modifies this
      ensures Valid() && old(trace) < trace
      ensures trace[|old(trace)|] == Begin(c, m, true)
      ensures Told(Caller(c), Answers(Some(full), Some(builds)), Envs(env) + Polled(polls), old(trace), trace)
      ensures Answered(c, m, true, answer) && !(answer.Err? && answer.error.Full?)
      ensures answer.Pending? ==> old(trace) < parked && WaitedThrough(Caller(c), parked, trace, polls)
      ensures answer == Err(TooLarge, m) <==> !FitsBuffer(m)
      ensures builds ==> !BuildFailed(trace, c)
      ensures builds && answer == Err(Closed, m) ==> Blame(Abs())
      ensures var route := RouteOf(old(Abs()), m, full, builds);
              Silent(env) && route != Refuse(Full) ==> Went(route, old(Abs()), Abs(), c, m, answer)
    {
      ghost var start := trace;
      ghost var told := Answers(Some(full), Some(builds));
      ghost var asked := Envs(env) + Polled(polls);
      answer := TrySend(c, m, true, full, builds, env);
      ghost var tried := trace;
      parked := trace;
      if answer.Err? && answer.error.Full? {
        var late := (n: nat) => env(n + 9);
        EnvsWithin(late, env, 9);
        answer, parked := AwaitRoom(c, m, polls, late);
        ToldJoin(Caller(c), told, UNASKED, told, Envs(env), Envs(late) + Polled(polls), asked, start, tried, trace);
      } else {
        ToldJoin(Caller(c), told, told, told, Envs(env), Envs(env), asked, start, tried, trace);
      }
      if builds {
        ToldBuilds(c, told, asked, start, trace);
        ClosedIsBlamed(trace, c);
      }
    }

    // ---- The drain ----

    method DrainReceiveAction(o: BoxId) returns (received: Option<Parcel>)
      requires Valid() && o in boxes && boxes[o].drain.Receiving?
      requires boxes[o].queue != [] || !boxes[o].attached
      modifies this
      ensures Did(if received.Some? then DrainReceive(o) else DrainFinish(o), old(trace))
      ensures received.Some? <==> old(boxes)[o].queue != []
      ensures received.Some? ==> old(boxes)[o].queue[0] == received.value
      ensures o in boxes && boxes[o].drain == if received.Some? then Holding(received.value) else Finished
      ensures boxes[o].queue == if received.Some? then old(boxes)[o].queue[1..] else []
    {
      ghost var before := Abs();
      var b := boxes[o];
      if b.queue == [] {
        boxes := boxes[o := b.(drain := Finished)];
        received := None;
        Record(DrainFinish(o), before);
      } else {
        boxes := boxes[o := b.(queue := b.queue[1..], drain := Holding(b.queue[0]))];
        received := Some(b.queue[0]);
        Record(DrainReceive(o), before);
      }
    }

    /** One `send_now` behind `writable()`. */
    method DrainSendNow(o: BoxId, p: Parcel, full: bool) returns (outcome: Outcome)
      requires Valid() && o in boxes && boxes[o].drain == Holding(p)
      modifies this
      ensures Did(DrainSend(o, outcome), old(trace))
      ensures outcome.Broken? <==> !old(peerOpen) || !Sendable(p.message)
      ensures outcome.WouldBlock? <==> old(peerOpen) && Sendable(p.message) && full && read < |old(wire)|
      ensures outcome.WouldBlock? ==> peerOpen && read < |wire|
      ensures o in boxes
      ensures boxes[o].drain == if outcome.Sent? then Delivered else if outcome.WouldBlock? then Holding(p) else Faulted
      ensures wire == if outcome.Sent? then old(wire) + [p] else old(wire)
      ensures failed == if outcome.Broken? then old(failed) + [p] else old(failed)
    {
      ghost var before := Abs();
      if !peerOpen || !Sendable(p.message) {
        outcome := Broken;
        boxes := boxes[o := boxes[o].(drain := Faulted)];
        failed := failed + [p];
      } else if full && read < |wire| {
        outcome := WouldBlock;
      } else {
        outcome := Sent;
        boxes := boxes[o := boxes[o].(drain := Delivered)];
        wire := wire + [p];
      }
      Record(DrainSend(o, outcome), before);
    }

    /** `Reactive::send`: retried on every readiness until it is not `WouldBlock`; `None` if the
        wait outlasts `tries`. The first `used` attempts found the socket full, as it was to be; the next,
        if there was one, did not. */
    method ReactiveSend(o: BoxId, p: Parcel, tries: seq<(bool, seq<Event>)>) returns (result: Option<bool>, ghost used: nat)
      requires Valid() && o in boxes && boxes[o].drain == Holding(p)
      modifies this
      ensures Valid() && o in boxes
      ensures used <= |tries| && (result.None? <==> used == |tries|) && forall i :: 0 <= i < used ==> tries[i].0
      ensures trace == old(trace) + Attempts(o, tries[..used]) + LastAttempt(o, tries, used, result)
      ensures Told(DrainOf(o), Answers(Some(true), None), Tried(tries), old(trace), trace)
      ensures result == Some(true) ==> boxes[o].drain == Delivered && |old(wire)| < |wire| && wire[|wire| - 1] == p
      ensures result == Some(false) ==> boxes[o].drain == Faulted && p in failed
      ensures result == None ==> boxes[o].drain == Holding(p)
      ensures result == None && tries != [] ==> peerOpen && read < |wire|
    {
      ghost var told := Answers(Some(true), None);
      ToldNothing(DrainOf(o), told, Tried(tries), old(trace));
      used := 0;
      for i := 0 to |tries|
        invariant i > 0 ==> peerOpen && read < |wire|
        invariant Valid() && o in boxes && boxes[o].drain == Holding(p)
        invariant used == i && forall j :: 0 <= j < i ==> tries[j].0
        invariant trace == old(trace) + Attempts(o, tries[..i])
        invariant Told(DrainOf(o), told, Tried(tries), old(trace), trace)
      {
        ghost var before := trace;
        LogsKept(old(trace), before);
        var outcome := TryOnce(o, p, tries, i);
        ToldJoin(DrainOf(o), told, told, told, Tried(tries), Tried(tries), Tried(tries), old(trace), before, trace);
        match outcome {
          case Sent => return Some(true), i;
          case WouldBlock =>
          case Broken => return Some(false), i;
        }
        AttemptsSnoc(o, tries, i);
        used := i + 1;
      }
      assert tries[..|tries|] == tries;
      result := None;
    }

    /** One attempt. */
    method TryOnce(o: BoxId, p: Parcel, tries: seq<(bool, seq<Event>)>, i: nat) returns (outcome: Outcome)
      requires Valid() && o in boxes && boxes[o].drain == Holding(p) && i < |tries|
      modifies this
      ensures Valid() && o in boxes
      ensures trace == old(trace) + (Others(DrainOf(o), tries[i].1) + [DrainSend(o, outcome)])
      ensures Told(DrainOf(o), Answers(Some(true), None), Tried(tries), old(trace), trace)
      ensures boxes[o].drain == if outcome.Sent? then Delivered else if outcome.WouldBlock? then Holding(p) else Faulted
      ensures outcome.Sent? ==> |old(wire)| < |wire| && wire[|wire| - 1] == p
      ensures outcome.WouldBlock? ==> tries[i].0 && peerOpen && read < |wire|
      ensures outcome.Broken? ==> p in failed
    {
      ghost var told := Answers(Some(true), None);
      ToldNothing(DrainOf(o), told, Tried(tries), old(trace));
      ToldOthers(DrainOf(o), told, Tried(tries), old(trace), trace, tries[i].1);
      Interfere(DrainOf(o), tries[i].1);
      LogsKept(old(trace), trace);
      ghost var before := trace;
      outcome := DrainSendNow(o, p, tries[i].0);
      Stepped(DrainOf(o), told, Tried(tries), old(trace), before, DrainSend(o, outcome));
    }

    method ReleaseAction(o: BoxId)
      requires Valid() && o in boxes && (boxes[o].drain.Delivered? || boxes[o].drain.Faulted?)
      modifies this
      ensures Did(DrainRelease(o), old(trace))
      ensures o in boxes && boxes[o] == Released(old(boxes)[o])
    {
      ghost var before := Abs();
      boxes := boxes[o := Released(boxes[o])];
      Record(DrainRelease(o), before);
    }

    /** Returning from the loop drops the receiver, and what is queued with it. */
    method StopAction(o: BoxId)
      requires Valid() && o in boxes && boxes[o].drain.Stopping?
      modifies this
      ensures Did(DrainStop(o), old(trace))
      ensures o in boxes && boxes[o].drain.Stopped? && stranded == old(stranded) + old(boxes)[o].queue
    {
      ghost var before := Abs();
      stranded := stranded + boxes[o].queue;
      boxes := boxes[o := boxes[o].(queue := [], drain := Stopped)];
      Record(DrainStop(o), before);
    }

    /** After a send: release the claim, and on an error return from the loop. */
    method FinishTurn(o: BoxId, sent: bool, others: seq<Event>, ghost asked: iset<Event>)
      requires Valid() && o in boxes && boxes[o].drain == if sent then Delivered else Faulted
      requires forall e :: e in others ==> e in asked
      modifies this
      ensures Valid() && o in boxes && Told(DrainOf(o), UNASKED, asked, old(trace), trace)
      ensures boxes[o].drain == if sent then Receiving else Stopped
    {
      ghost var start := trace;
      ToldNothing(DrainOf(o), UNASKED, asked, start);
      ToldOthers(DrainOf(o), UNASKED, asked, start, trace, others);
      Interfere(DrainOf(o), others);
      ghost var paused := trace;
      ReleaseAction(o);
      Stepped(DrainOf(o), UNASKED, asked, start, paused, DrainRelease(o));
      if !sent {
        ToldOthers(DrainOf(o), UNASKED, asked, start, trace, others);
        Interfere(DrainOf(o), others);
        paused := trace;
        StopAction(o);
        Stepped(DrainOf(o), UNASKED, asked, start, paused, DrainStop(o));
      }
    }

    /** One turn of the loop in `Outbox::drain`: takes the front of the queue and sees it onto the
        wire, at `place`. `again` says whether there will be another turn; if not, the message is
        still being sent, every attempt having found the socket full, or its send failed, or the
        channel was closed and empty. */
    method DrainTurn(o: BoxId, plan: Plan) returns (again: bool, ghost place: nat)
      requires Valid() && o in boxes && boxes[o].drain.Receiving?
      requires boxes[o].queue != [] || !boxes[o].attached
      modifies this
      ensures Valid() && o in boxes && Told(DrainOf(o), Answers(Some(true), None), InPlan(plan), old(trace), trace)
      ensures again ==> boxes[o].drain.Receiving? && old(boxes)[o].queue != []
      ensures again ==> |old(wire)| <= place < |wire| && wire[place] == old(boxes)[o].queue[0]
      ensures !again ==> match boxes[o].drain
                         case Holding(p) =>
                           && old(boxes)[o].queue != [] && p == old(boxes)[o].queue[0]
                           && (forall i :: 0 <= i < |plan.tries| ==> plan.tries[i].0)
                           && trace == old(trace) + [DrainReceive(o)] + Attempts(o, plan.tries)
                         case Stopped => old(boxes)[o].queue != [] && old(boxes)[o].queue[0] in failed
                         case Finished => old(boxes)[o].queue == []
                         case _ => false
    {
      ghost var start := trace;
      ghost var told := Answers(Some(true), None);
      ToldNothing(DrainOf(o), told, InPlan(plan), start);
      var received := DrainReceiveAction(o);
      place := 0;
      if received.None? {
        Stepped(DrainOf(o), told, InPlan(plan), start, start, DrainFinish(o));
        return false, place;
      }
      Stepped(DrainOf(o), told, InPlan(plan), start, start, DrainReceive(o));
      LogsKept(start, trace);
      ghost var taken := trace;
      var result, used := ReactiveSend(o, received.value, plan.tries);
      ToldJoin(DrainOf(o), told, told, told, InPlan(plan), Tried(plan.tries), InPlan(plan), start, taken, trace);
      if result.None? {
        assert plan.tries[..|plan.tries|] == plan.tries;
        return false, place;
      }
      ghost var sent := trace;
      if result.value {
        place := |wire| - 1;
      }
      FinishTurn(o, result.value, plan.after, InPlan(plan));
      ToldJoin(DrainOf(o), told, UNASKED, told, InPlan(plan), InPlan(plan), InPlan(plan), start, sent, trace);
      LogsKept(sent, trace);
      return result.value, place;
    }

    /** `Outbox::drain`, for as many turns as the schedule gives it. While it goes on, each turn saw the
        front of the queue onto the wire, in wire order, or found the queue empty, and every step of the
        schedule meanwhile belongs to one of the turns; it ends well only when the channel is closed and
        empty, and badly only after a failed send. */
    method DrainLoop(o: BoxId, plans: seq<Plan>) returns (ghost log: seq<Turn>)
      requires Valid() && o in boxes && boxes[o].drain.Receiving?
      modifies this
      ensures Valid() && o in boxes && TurnsTaken(trace, o, |old(trace)|, plans, log)
      ensures Told(DrainOf(o), Answers(Some(true), None), InSome(plans), old(trace), trace)
      ensures match boxes[o].drain
              case Receiving => |log| == |plans| && EndOf(|old(trace)|, log, |log|) == |trace|
              case Holding(_) => |log| < |plans| && Stuck(trace, EndOf(|old(trace)|, log, |log|), o, plans[|log|])
              case Finished => |log| < |plans|
              case Stopped => |log| < |plans|
              case _ => false
    {
      ghost var start := trace;
      ghost var told := Answers(Some(true), None);
      ToldNothing(DrainOf(o), told, InSome(plans), start);
      log := [];
      for i := 0 to |plans|
        invariant Valid() && o in boxes && boxes[o].drain.Receiving?
        invariant |log| == i && TurnsTaken(trace, o, |start|, plans, log) && EndOf(|start|, log, i) == |trace|
        invariant Told(DrainOf(o), told, InSome(plans), start, trace)
      {
        ghost var earlier := trace;
        var again;
        ghost var t;
        again, t := LoopTurn(o, plans[i]);
        PlanWithin(plans, i);
        ToldJoin(DrainOf(o), told, told, told, InSome(plans), InPlan(plans[i]), InSome(plans), start, earlier, trace);
        if !again {
          TurnsKept(earlier, trace, o, plans, log);
          return;
        }
        TurnAdded(earlier, trace, o, |start|, plans, log, t);
        log := log + [t];
      }
    }

    /** Others run, and then the drain takes its turn, if there is anything for it to do. */
    method LoopTurn(o: BoxId, plan: Plan) returns (again: bool, ghost t: Turn)
      requires Valid() && o in boxes && boxes[o].drain.Receiving?
      modifies this
      ensures Valid() && o in boxes && Told(DrainOf(o), Answers(Some(true), None), InPlan(plan), old(trace), trace)
      ensures again ==> boxes[o].drain.Receiving? && TurnTaken(trace, o, plan, t) && t.from == |old(trace)| && t.to == |trace|
      ensures !again ==> match boxes[o].drain
                         case Holding(_) => Stuck(trace, |old(trace)|, o, plan)
                         case Finished => true
                         case Stopped => true
                         case _ => false
    {
      ghost var start := trace;
      ghost var told := Answers(Some(true), None);
      ToldNothing(DrainOf(o), told, InPlan(plan), start);
      ToldOthers(DrainOf(o), told, InPlan(plan), start, start, plan.before);
      Interfere(DrainOf(o), plan.before);
      ghost var at := trace;
      if boxes[o].queue == [] && boxes[o].attached {
        t := Turn(|start|, |at|, |at|, None);
        IdleTurn(start, at, o, plan);
        return true, t;
      }
      ghost var place;
      again, place := DrainTurn(o, plan);
      ToldJoin(DrainOf(o), told, told, told, InPlan(plan), InPlan(plan), InPlan(plan), start, at, trace);
      t := Turn(|start|, |at|, |trace|, Some(place));
      if again {
        BusyTurn(start, at, trace, o, plan, place);
      } else if boxes[o].drain.Holding? {
        assert trace[|start|..] == Others(DrainOf(o), plan.before) + [DrainReceive(o)] + Attempts(o, plan.tries);
      }
    }
  }

  /** Real-time order, said of the running code: a message accepted by the time the trace was
      `earlier` is ahead, on the wire, of the message of any call that began after. */
  lemma CodeIsFifo(e: Endpoint, earlier: seq<Event>, c1: CallId, c2: CallId, i: nat)
    requires e.Valid() && earlier <= e.trace
    requires var s := After(INITIAL, earlier);
      c1 in s.calls && s.calls[c1].pc.Accepted? && Sendable(s.calls[c1].message) && c2 !in s.calls
    requires i < |e.wire| && e.wire[i].call == c2
    ensures Parcel(c1, After(INITIAL, earlier).calls[c1].message) in e.wire[..i]
  {
    var later := e.trace[|earlier|..];
    assert e.trace == earlier + later;
    AfterConcat(INITIAL, earlier, later);
    assert e.Abs() == After(After(INITIAL, earlier), later);
    RealTimeFifo(earlier, later, c1, c2, i);
  }
}
