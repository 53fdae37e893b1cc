/** The two-tier send of one `Ref`, as a transition system.

    One event is one atomic action: an atomic load or update, a `OnceLock` access, a channel
    operation or a `sendmsg`. Any number of calls are in progress at once, and a schedule may
    interleave their events, those of the drain tasks and those of the peer in any order. */
module SendModel {
  import opened Wire

  /** How many messages may wait in the outbox. */
  const DEPTH: nat := 8

  type CallId = nat
  type BoxId = nat

  /** A message, together with the call that was given it. */
  datatype Parcel = Parcel(call: CallId, message: Message)

  datatype SendError = Full | TooLarge | Closed

  /** Where a call of `try_send` or `send` has got to. `parking` tells the lookup of the outbox
      at the end of `try_send` from the one `send` makes after `Full`. */
  datatype Pc =
    | Entered                              // size checked; about to look for an outbox
    | Checking(box: BoxId)                 // about to load `pending`
    | Cleared                              // fast path open; about to `sendmsg`
    | Queueing(parking: bool)              // about to ask for the outbox
    | Building(parking: bool)              // there was none; about to build one
    | Racing(box: BoxId, parking: bool)    // built one; about to `set` it
    | Pushing(box: BoxId)                  // about to claim
    | Claimed(box: BoxId)                  // counted in `pending`; about to push
    | Refused(box: BoxId, error: SendError)  // push failed; claim not yet withdrawn
    | Parked(box: BoxId)                   // awaiting a slot
    | Granted(box: BoxId)                  // slot reserved, not yet counted
    | Committed(box: BoxId)                // slot reserved and counted; about to push
    | Accepted                             // returned `Ok`
    | Returned(error: SendError)           // returned the message to the caller
    | Cancelled                            // the future was dropped while it waited

  /** `seen` is the number of messages accepted when the call began. */
  datatype Call = Call(message: Message, waits: bool, seen: nat, pc: Pc)

  /** Where a drain task has got to. */
  datatype Drain =
    | Receiving                // awaiting a message
    | Holding(parcel: Parcel)  // in `Reactive::send`
    | Delivered                // sent; `pending` not yet decremented
    | Faulted                  // send failed; `pending` not yet decremented
    | Stopping                 // decremented after a failure; receiver not yet dropped
    | Stopped                  // receiver dropped after a failure
    | Finished                 // the channel closed and was empty

  /** An outbox: its channel, its counter and its drain task. `attached` says whether the
      channel still has a sender. */
  datatype Box = Box(queue: seq<Parcel>, permits: int, pending: int, drain: Drain, attached: bool)

  const NEW_BOX := Box([], 0, 0, Receiving, true)

  /** `accepted`, `failed` and `stranded` are logs: every message for which a call returned `Ok`,
      those the drain could not send, and those left in a channel whose drain had stopped. */
  datatype State = State(
    calls: map<CallId, Call>,
    boxes: map<BoxId, Box>,
    installed: Option<BoxId>,
    wire: seq<Parcel>,
    read: nat,
    peerOpen: bool,
    held: bool,
    accepted: seq<Parcel>,
    failed: seq<Parcel>,
    stranded: seq<Parcel>)

  const INITIAL := State(map[], map[], None, [], 0, true, true, [], [], [])

  datatype Event =
    | Begin(call: CallId, message: Message, waits: bool)
    | LookForOutbox(call: CallId)
    | LoadPending(call: CallId)
    | InlineSend(call: CallId, outcome: Outcome)
    | GetOutbox(call: CallId)
    | Build(call: CallId, box: BoxId, built: bool)
    | Install(call: CallId)
    | Claim(call: CallId)
    | Push(call: CallId)
    | Withdraw(call: CallId)
    | Grant(call: CallId)
    | Commit(call: CallId)
    | PermitSend(call: CallId)
    | ReserveClosed(call: CallId)
    | Cancel(call: CallId)
    | DrainReceive(box: BoxId)
    | DrainSend(box: BoxId, outcome: Outcome)
    | DrainRelease(box: BoxId)
    | DrainStop(box: BoxId)
    | DrainFinish(box: BoxId)
    | DropLastRef
    | PeerRead
    | PeerClose

  /** Has the call returned, or been dropped? */
  predicate Done(pc: Pc) {
    pc.Accepted? || pc.Returned? || pc.Cancelled?
  }

  /** Is the call counted in `pending` without its message being queued? */
  predicate Claiming(pc: Pc) {
    pc.Claimed? || pc.Refused? || pc.Committed?
  }

  /** Does the call hold a reserved slot? */
  predicate Permitted(pc: Pc) {
    pc.Granted? || pc.Committed?
  }

  /** Is the channel's receiving half still there? */
  predicate ReceiverOpen(b: Box) {
    !b.drain.Stopped? && !b.drain.Finished?
  }

  predicate HasRoom(b: Box) {
    |b.queue| + b.permits < DEPTH
  }

  /** What the kernel may answer: records are accepted or refused for want of room only while
      the peer is open, refused only while something is unread, and a control message that does
      not fit is an error. */
  predicate KernelMay(s: State, m: Message, outcome: Outcome) {
    match outcome
    case Sent => s.peerOpen && Sendable(m)
    case WouldBlock => s.peerOpen && Sendable(m) && s.read < |s.wire|
    case Broken => !s.peerOpen || !Sendable(m)
  }

  predicate Enabled(s: State, e: Event) {
    match e
    case Begin(c, _, _) => s.held && c !in s.calls
    case LookForOutbox(c) => c in s.calls && s.calls[c].pc.Entered?
    case LoadPending(c) => c in s.calls && s.calls[c].pc.Checking? && s.calls[c].pc.box in s.boxes
    case InlineSend(c, outcome) =>
      c in s.calls && s.calls[c].pc.Cleared? && KernelMay(s, s.calls[c].message, outcome)
    case GetOutbox(c) => c in s.calls && s.calls[c].pc.Queueing?
    case Build(c, o, _) => c in s.calls && s.calls[c].pc.Building? && o !in s.boxes
    case Install(c) => c in s.calls && s.calls[c].pc.Racing? && s.calls[c].pc.box in s.boxes
    case Claim(c) => c in s.calls && s.calls[c].pc.Pushing? && s.calls[c].pc.box in s.boxes
    case Push(c) => c in s.calls && s.calls[c].pc.Claimed? && s.calls[c].pc.box in s.boxes
    case Withdraw(c) => c in s.calls && s.calls[c].pc.Refused? && s.calls[c].pc.box in s.boxes
    case Grant(c) =>
      && c in s.calls && s.calls[c].pc.Parked? && s.calls[c].pc.box in s.boxes
      && ReceiverOpen(s.boxes[s.calls[c].pc.box]) && HasRoom(s.boxes[s.calls[c].pc.box])
    case Commit(c) => c in s.calls && s.calls[c].pc.Granted? && s.calls[c].pc.box in s.boxes
    case PermitSend(c) => c in s.calls && s.calls[c].pc.Committed? && s.calls[c].pc.box in s.boxes
    case ReserveClosed(c) =>
      && c in s.calls && (s.calls[c].pc.Parked? || s.calls[c].pc.Granted?)
      && s.calls[c].pc.box in s.boxes && !ReceiverOpen(s.boxes[s.calls[c].pc.box])
    case Cancel(c) =>
      && c in s.calls && (s.calls[c].pc.Parked? || s.calls[c].pc.Granted?)
      && s.calls[c].pc.box in s.boxes
    case DrainReceive(o) => o in s.boxes && s.boxes[o].drain.Receiving? && s.boxes[o].queue != []
    case DrainSend(o, outcome) =>
      o in s.boxes && s.boxes[o].drain.Holding? && KernelMay(s, s.boxes[o].drain.parcel.message, outcome)
    case DrainRelease(o) => o in s.boxes && (s.boxes[o].drain.Delivered? || s.boxes[o].drain.Faulted?)
    case DrainStop(o) => o in s.boxes && s.boxes[o].drain.Stopping?
    case DrainFinish(o) =>
      o in s.boxes && s.boxes[o].drain.Receiving? && s.boxes[o].queue == [] && !s.boxes[o].attached
    case DropLastRef => s.held && forall c :: c in s.calls ==> Done(s.calls[c].pc)
    case PeerRead => s.peerOpen && s.read < |s.wire|
    case PeerClose => s.peerOpen
  }

  function Goto(s: State, c: CallId, pc: Pc): State
    requires c in s.calls
  {
    s.(calls := s.calls[c := s.calls[c].(pc := pc)])
  }

  function PutBox(s: State, o: BoxId, b: Box): State {
    s.(boxes := s.boxes[o := b])
  }

  function AddPending(b: Box, n: int): Box {
    b.(pending := b.pending + n)
  }

  function AddPermits(b: Box, n: int): Box {
    b.(permits := b.permits + n)
  }

  /** What the drain does after its send returned: it releases the claim, and goes on or stops. */
  function Released(b: Box): Box {
    AddPending(b, -1).(drain := if b.drain.Delivered? then Receiving else Stopping)
  }

  /** The choice between the fast path and the queue. */
  function AfterCheck(m: Message, backedUp: bool): Pc {
    if Sendable(m) && !backedUp then Cleared else Queueing(false)
  }

  /** What a call does with the outbox once it has one. */
  function WithOutbox(o: BoxId, parking: bool): Pc {
    if parking then Parked(o) else Pushing(o)
  }

  /** The call's message enters the channel. */
  function Enqueue(s: State, c: CallId, o: BoxId, b: Box): State
    requires c in s.calls
  {
    var p := Parcel(c, s.calls[c].message);
    Goto(PutBox(s, o, b.(queue := b.queue + [p])), c, Accepted).(accepted := s.accepted + [p])
  }

  /** The call's message goes straight to the socket. */
  function Inlined(s: State, c: CallId): State
    requires c in s.calls
  {
    var p := Parcel(c, s.calls[c].message);
    Goto(s, c, Accepted).(wire := s.wire + [p], accepted := s.accepted + [p])
  }

  /** The call's message is sent with a permit into a channel whose receiver is gone. */
  function Strand(s: State, c: CallId, o: BoxId, b: Box): State
    requires c in s.calls
  {
    var p := Parcel(c, s.calls[c].message);
    Goto(PutBox(s, o, b), c, Accepted).(stranded := s.stranded + [p], accepted := s.accepted + [p])
  }

  function Begun(s: State, c: CallId, m: Message, waits: bool): State {
    var pc := if FitsBuffer(m) then Entered else Returned(TooLarge);
    s.(calls := s.calls[c := Call(m, waits, |s.accepted|, pc)])
  }

  /** `OnceLock::set`, whose loser's outbox is dropped, and the `get` after it. */
  function Installed(s: State, c: CallId): State
    requires c in s.calls && s.calls[c].pc.Racing? && s.calls[c].pc.box in s.boxes
  {
    var o := s.calls[c].pc.box;
    var parking := s.calls[c].pc.parking;
    if s.installed.Some?
    then Goto(PutBox(s, o, s.boxes[o].(attached := false)), c, WithOutbox(s.installed.value, parking))
    else Goto(s.(installed := Some(o)), c, WithOutbox(o, parking))
  }

  /** The call gives its reserved slot back, if it has one. */
  function GiveBack(s: State, c: CallId): State
    requires c in s.calls && (s.calls[c].pc.Parked? || s.calls[c].pc.Granted?)
    requires s.calls[c].pc.box in s.boxes
  {
    var o := s.calls[c].pc.box;
    if s.calls[c].pc.Granted? then PutBox(s, o, AddPermits(s.boxes[o], -1)) else s
  }

  /** Is this a call's step, rather than a drain's, the peer's or the holder's? */
  predicate ByCall(e: Event) {
    && !e.DrainReceive? && !e.DrainSend? && !e.DrainRelease? && !e.DrainStop? && !e.DrainFinish?
    && !e.DropLastRef? && !e.PeerRead? && !e.PeerClose?
  }

  function ApplyCall(s: State, e: Event): State
    requires Enabled(s, e) && ByCall(e)
  {
    match e
    case Begin(c, m, waits) => Begun(s, c, m, waits)
    case LookForOutbox(c) =>
      Goto(s, c, if s.installed.Some? then Checking(s.installed.value) else AfterCheck(s.calls[c].message, false))
    case LoadPending(c) =>
      Goto(s, c, AfterCheck(s.calls[c].message, s.boxes[s.calls[c].pc.box].pending != 0))
    case InlineSend(c, outcome) => (
      match outcome
      case Sent => Inlined(s, c)
      case WouldBlock => Goto(s, c, Queueing(false))
      case Broken => Goto(s, c, Returned(Closed)))
    case GetOutbox(c) =>
      var parking := s.calls[c].pc.parking;
      Goto(s, c, if s.installed.Some? then WithOutbox(s.installed.value, parking) else Building(parking))
    case Build(c, o, built) =>
      var parking := s.calls[c].pc.parking;
      if built then Goto(PutBox(s, o, NEW_BOX), c, Racing(o, parking)) else Goto(s, c, Returned(Closed))
    case Install(c) => Installed(s, c)
    case Claim(c) =>
      var o := s.calls[c].pc.box;
      Goto(PutBox(s, o, AddPending(s.boxes[o], 1)), c, Claimed(o))
    case Push(c) =>
      var o := s.calls[c].pc.box;
      if !ReceiverOpen(s.boxes[o]) then Goto(s, c, Refused(o, Closed))
      else if !HasRoom(s.boxes[o]) then Goto(s, c, Refused(o, Full))
      else Enqueue(s, c, o, s.boxes[o])
    case Withdraw(c) =>
      var o := s.calls[c].pc.box;
      var error := s.calls[c].pc.error;
      Goto(PutBox(s, o, AddPending(s.boxes[o], -1)), c,
           if error.Full? && s.calls[c].waits then Queueing(true) else Returned(error))
    case Grant(c) =>
      var o := s.calls[c].pc.box;
      Goto(PutBox(s, o, AddPermits(s.boxes[o], 1)), c, Granted(o))
    case Commit(c) =>
      var o := s.calls[c].pc.box;
      Goto(PutBox(s, o, AddPending(s.boxes[o], 1)), c, Committed(o))
    case PermitSend(c) =>
      var o := s.calls[c].pc.box;
      var b := AddPermits(s.boxes[o], -1);
      if ReceiverOpen(b) then Enqueue(s, c, o, b) else Strand(s, c, o, b)
    case ReserveClosed(c) => Goto(GiveBack(s, c), c, Returned(Closed))
    case Cancel(c) => Goto(GiveBack(s, c), c, Cancelled)
  }

  function Apply(s: State, e: Event): State
    requires Enabled(s, e)
  {
    match e
    case DrainReceive(o) =>
      var b := s.boxes[o];
      PutBox(s, o, b.(queue := b.queue[1..], drain := Holding(b.queue[0])))
    case DrainSend(o, outcome) => (
      var p := s.boxes[o].drain.parcel;
      match outcome
      case Sent => PutBox(s, o, s.boxes[o].(drain := Delivered)).(wire := s.wire + [p])
      case WouldBlock => s
      case Broken => PutBox(s, o, s.boxes[o].(drain := Faulted)).(failed := s.failed + [p]))
    case DrainRelease(o) =>
      PutBox(s, o, Released(s.boxes[o]))
    case DrainStop(o) =>
      PutBox(s, o, s.boxes[o].(queue := [], drain := Stopped)).(stranded := s.stranded + s.boxes[o].queue)
    case DrainFinish(o) => PutBox(s, o, s.boxes[o].(drain := Finished))
    case DropLastRef =>
      var t := s.(held := false);
      if s.installed.Some? && s.installed.value in s.boxes
      then PutBox(t, s.installed.value, s.boxes[s.installed.value].(attached := false))
      else t
    case PeerRead => s.(read := s.read + 1)
    case PeerClose => s.(peerOpen := false)
    case _ => ApplyCall(s, e)
  }

  /** An event that is not enabled changes nothing, so every sequence of events is a schedule. */
  function Step(s: State, e: Event): State {
    if Enabled(s, e) then Apply(s, e) else s
  }

  function After(s: State, es: seq<Event>): State
    decreases |es|
  {
    if es == [] then s else After(Step(s, es[0]), es[1..])
  }

  lemma {:induction false} AfterConcat(s: State, a: seq<Event>, b: seq<Event>)
    ensures After(s, a + b) == After(After(s, a), b)
    decreases |a|
  {
    if a == [] {
      assert a + b == b;
    } else {
      assert (a + b)[1..] == a[1..] + b;
      AfterConcat(Step(s, a[0]), a[1..], b);
    }
  }

  lemma AfterSnoc(s: State, a: seq<Event>, e: Event)
    ensures After(s, a + [e]) == Step(After(s, a), e)
  {
    AfterConcat(s, a, [e]);
    assert [e][1..] == [];
    assert After(After(s, a), [e]) == After(Step(After(s, a), e), []);
  }

  lemma AfterCons(s: State, e: Event, es: seq<Event>)
    ensures After(s, [e] + es) == After(Step(s, e), es)
  {
  }
}
