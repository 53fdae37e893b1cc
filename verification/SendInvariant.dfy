/** What every interleaving of the two-tier send keeps. */
module SendInvariant {
  import opened Wire
  import opened SendModel

  /** Does the call hold a reference to the installed outbox? */
  predicate UsesBox(pc: Pc) {
    pc.Checking? || pc.Pushing? || pc.Claimed? || pc.Refused? || pc.Parked? || pc.Granted? || pc.Committed?
  }

  function Main(s: State): Box {
    if s.installed.Some? && s.installed.value in s.boxes then s.boxes[s.installed.value] else NEW_BOX
  }

  /** The message a drain has taken and not yet sent. */
  function HeldBy(d: Drain): seq<Parcel> {
    if d.Holding? then [d.parcel] else []
  }

  /** One while the drain owes `pending` a decrement. */
  function Owed(d: Drain): nat {
    if d.Holding? || d.Delivered? || d.Faulted? then 1 else 0
  }

  function Claimers(s: State): set<CallId> {
    set c | c in s.calls && Claiming(s.calls[c].pc)
  }

  function Holders(s: State): set<CallId> {
    set c | c in s.calls && Permitted(s.calls[c].pc)
  }

  /** An outbox that never carries anything. */
  predicate Unused(b: Box) {
    b.queue == [] && b.permits == 0 && b.pending == 0 && (b.drain.Receiving? || (b.drain.Finished? && !b.attached))
  }

  predicate CallShape(s: State, k: Call) {
    && k.seen <= |s.accepted|
    && (UsesBox(k.pc) ==> s.installed == Some(k.pc.box))
    && (k.pc.Racing? ==>
      k.pc.box in s.boxes && s.installed != Some(k.pc.box) && s.boxes[k.pc.box] == NEW_BOX && !k.pc.parking)
    && (k.pc.Building? ==> !k.pc.parking)
    && (k.pc.Queueing? && k.pc.parking ==> s.installed.Some? && k.waits)
    && (k.pc.Parked? || k.pc.Granted? || k.pc.Committed? || k.pc.Cancelled? ==> k.waits)
    && (!FitsBuffer(k.message) <==> k.pc == Returned(TooLarge))
    && (k.pc.Cleared? ==> Sendable(k.message))
    && (k.pc.Refused? ==> !k.pc.error.TooLarge?)
    && (k.pc == Returned(Full) ==> !k.waits)
  }

  /** Callers only ever reach one outbox, and the others carry nothing. */
  predicate Shape(s: State) {
    && (forall c :: c in s.calls ==> CallShape(s, s.calls[c]))
    && (forall c, d :: c in s.calls && d in s.calls && c != d && s.calls[c].pc.Racing? && s.calls[d].pc.Racing?
          ==> s.calls[c].pc.box != s.calls[d].pc.box)
    && (s.installed.Some? ==> s.installed.value in s.boxes && s.boxes[s.installed.value].attached == s.held)
    && (forall o :: o in s.boxes && s.installed != Some(o) ==> Unused(s.boxes[o]))
    && (!s.held ==> forall c :: c in s.calls ==> Done(s.calls[c].pc))
    && s.read <= |s.wire|
  }

  /** `pending` counts the queue, the message the drain owes a decrement for, the callers between
      claim and outcome, and whatever a stopped drain left behind: exactly. */
  predicate Account(s: State) {
    && Main(s).pending == |Main(s).queue| + Owed(Main(s).drain) + |Claimers(s)| + |s.stranded|
    && Main(s).permits == |Holders(s)|
    && |Main(s).queue| + |s.stranded| + Main(s).permits <= DEPTH
  }

  /** Everything that carries accepted messages. */
  function Places(s: State): multiset<Parcel> {
    multiset(s.wire) + multiset(HeldBy(Main(s).drain)) + multiset(Main(s).queue)
    + multiset(s.failed) + multiset(s.stranded)
  }

  predicate IsAccepted(s: State, p: Parcel) {
    p.call in s.calls && s.calls[p.call].pc.Accepted? && s.calls[p.call].message == p.message
  }

  /** The log of acceptances lists each accepted call once, with the message it was given. */
  predicate Ledger(s: State) {
    && (forall i :: 0 <= i < |s.accepted| ==> IsAccepted(s, s.accepted[i]))
    && (forall i, j :: 0 <= i < j < |s.accepted| ==> s.accepted[i].call != s.accepted[j].call)
    && (forall c :: c in s.calls && s.calls[c].pc.Accepted? ==> Parcel(c, s.calls[c].message) in s.accepted)
  }

  /** Every accepted message is in exactly one place. */
  predicate Conserve(s: State) {
    multiset(s.accepted) == Places(s) && Ledger(s)
  }

  /** Why messages go astray. */
  predicate Faults(s: State) {
    && (s.stranded != [] ==> Main(s).drain.Stopped?)
    && (Main(s).drain.Stopped? || Main(s).drain.Finished? ==> Main(s).queue == [])
    && (Main(s).drain.Finished? ==> !s.held)
    && (Main(s).drain.Faulted? || Main(s).drain.Stopping? || Main(s).drain.Stopped? ==> s.failed != [])
    && (s.failed != [] ==> Main(s).drain.Faulted? || Main(s).drain.Stopping? || Main(s).drain.Stopped?)
    && (forall i :: 0 <= i < |s.failed| ==> !Sendable(s.failed[i].message) || !s.peerOpen)
    && (forall i :: 0 <= i < |s.wire| ==> Sendable(s.wire[i].message))
  }

  /** What had been accepted when the call began. */
  function SeenBy(s: State, c: CallId): seq<Parcel> {
    if c in s.calls && s.calls[c].seen <= |s.accepted| then s.accepted[..s.calls[c].seen] else []
  }

  /** On the wire, or reported as failed by the drain. */
  predicate Settled(s: State, p: Parcel) {
    p in s.wire || p in s.failed
  }

  /** What is queued behind the socket, oldest first. */
  function Line(s: State): seq<Parcel> {
    HeldBy(Main(s).drain) + Main(s).queue
  }

  /** A call cleared for the fast path has nothing left to overtake. */
  predicate ClearedLast(s: State) {
    forall c, x :: c in s.calls && s.calls[c].pc.Cleared? && x in SeenBy(s, c) ==> Settled(s, x)
  }

  /** The drain could not send it, because it does not fit in one control message. */
  predicate Oversized(s: State, p: Parcel) {
    p in s.failed && !Sendable(p.message)
  }

  /** On the wire, whatever was accepted before a call began is ahead of it, unless it was oversized
      and has failed. */
  predicate WireOrder(s: State) {
    forall i, x :: 0 <= i < |s.wire| && x in SeenBy(s, s.wire[i].call) ==> x in s.wire[..i] || Oversized(s, x)
  }

  /** In the queue, whatever was accepted before a call began is settled or ahead of it. */
  predicate LineOrder(s: State) {
    forall i, x :: 0 <= i < |Line(s)| && x in SeenBy(s, Line(s)[i].call) ==> Settled(s, x) || x in Line(s)[..i]
  }

  predicate Order(s: State) {
    ClearedLast(s) && WireOrder(s) && LineOrder(s)
  }

  predicate Tally(s: State) {
    Account(s) && Conserve(s) && Faults(s) && Order(s)
  }

  predicate Inv(s: State) {
    Shape(s) && Tally(s)
  }

  function Count(b: bool): nat {
    if b then 1 else 0
  }

  lemma OneElement<T>(a: set<T>, b: set<T>, x: T)
    requires a - {x} == b - {x}
    ensures |a| + Count(x in b) == |b| + Count(x in a)
  {
    assert x in a ==> a == (a - {x}) + {x};
    assert x in b ==> b == (b - {x}) + {x};
  }

  lemma GotoClaimers(s: State, c: CallId, pc: Pc)
    requires c in s.calls
    ensures |Claimers(Goto(s, c, pc))| + Count(Claiming(s.calls[c].pc)) == |Claimers(s)| + Count(Claiming(pc))
  {
    var t := Goto(s, c, pc);
    assert Claimers(t) - {c} == Claimers(s) - {c};
    OneElement(Claimers(t), Claimers(s), c);
  }

  lemma GotoHolders(s: State, c: CallId, pc: Pc)
    requires c in s.calls
    ensures |Holders(Goto(s, c, pc))| + Count(Permitted(s.calls[c].pc)) == |Holders(s)| + Count(Permitted(pc))
  {
    var t := Goto(s, c, pc);
    assert Holders(t) - {c} == Holders(s) - {c};
    OneElement(Holders(t), Holders(s), c);
  }

  lemma GotoShape(s: State, c: CallId, pc: Pc)
    requires Shape(s) && c in s.calls
    requires CallShape(s, s.calls[c].(pc := pc)) && !pc.Racing?
    requires s.held || Done(pc)
    ensures Shape(Goto(s, c, pc))
  {
  }

  lemma PutMainShape(s: State, b: Box)
    requires Shape(s) && s.installed.Some? && b.attached == s.held
    ensures Shape(PutBox(s, s.installed.value, b))
    ensures Main(PutBox(s, s.installed.value, b)) == b
  {
  }

  lemma LogShape(s: State, t: State)
    requires Shape(s)
    requires t == s.(wire := t.wire, read := t.read, accepted := t.accepted, failed := t.failed,
                     stranded := t.stranded, peerOpen := t.peerOpen)
    requires |s.accepted| <= |t.accepted| && t.read <= |t.wire|
    ensures Shape(t)
  {
  }

  // ---- Steps that move no message ----

  /** `t` differs from `s` at most in one call's program counter and in an outbox's counters. */
  predicate Quiet(s: State, t: State, c: CallId) {
    && c in s.calls && c in t.calls
    && t.wire == s.wire && t.accepted == s.accepted && t.failed == s.failed && t.stranded == s.stranded
    && t.peerOpen == s.peerOpen && t.held == s.held
    && Main(t).queue == Main(s).queue && Main(t).drain == Main(s).drain
    && t.calls == s.calls[c := s.calls[c].(pc := t.calls[c].pc)]
    && s.calls[c].pc.Accepted? == t.calls[c].pc.Accepted?
  }

  lemma QuietConserve(s: State, t: State, c: CallId)
    requires Conserve(s) && Faults(s) && Quiet(s, t, c)
    ensures Conserve(t) && Faults(t)
  {
  }

  /** Order on the wire survives whatever leaves the wire, and what its calls had seen, alone. */
  lemma SameWireOrder(s: State, t: State)
    requires WireOrder(s) && t.wire == s.wire && s.failed <= t.failed
    requires forall i :: 0 <= i < |s.wire| ==> SeenBy(t, s.wire[i].call) == SeenBy(s, s.wire[i].call)
    ensures WireOrder(t)
  {
    forall i, x | 0 <= i < |t.wire| && x in SeenBy(t, t.wire[i].call)
      ensures x in t.wire[..i] || Oversized(t, x)
    {
      assert x in SeenBy(s, s.wire[i].call);
      assert Oversized(s, x) ==> Oversized(t, x);
    }
  }

  lemma QuietOrder(s: State, t: State, c: CallId)
    requires Order(s) && Quiet(s, t, c)
    requires t.calls[c].pc.Cleared? ==> forall x :: x in SeenBy(s, c) ==> Settled(s, x)
    ensures Order(t)
  {
    assert forall d :: SeenBy(t, d) == SeenBy(s, d);
    assert Line(t) == Line(s);
    SameWireOrder(s, t);
    forall d, x | d in t.calls && t.calls[d].pc.Cleared? && x in SeenBy(t, d)
      ensures Settled(t, x)
    {
      assert x in SeenBy(s, d);
      assert Settled(s, x);
    }
    forall i, x | 0 <= i < |Line(t)| && x in SeenBy(t, Line(t)[i].call)
      ensures Settled(t, x) || x in Line(t)[..i]
    {
      assert x in SeenBy(s, Line(s)[i].call);
      assert Settled(s, x) || x in Line(s)[..i];
    }
  }

  lemma CountsFollow(s: State, t: State, c: CallId)
    requires c in s.calls && c in t.calls && t.calls == s.calls[c := s.calls[c].(pc := t.calls[c].pc)]
    ensures |Claimers(t)| + Count(Claiming(s.calls[c].pc)) == |Claimers(s)| + Count(Claiming(t.calls[c].pc))
    ensures |Holders(t)| + Count(Permitted(s.calls[c].pc)) == |Holders(s)| + Count(Permitted(t.calls[c].pc))
  {
    GotoClaimers(s, c, t.calls[c].pc);
    GotoHolders(s, c, t.calls[c].pc);
    var u := Goto(s, c, t.calls[c].pc);
    assert Claimers(t) == Claimers(u) && Holders(t) == Holders(u);
  }

  lemma QuietTally(s: State, t: State, c: CallId)
    requires Tally(s) && Quiet(s, t, c)
    requires Main(t) == Main(s).(pending := Main(t).pending, permits := Main(t).permits)
    requires Main(t).pending == Main(s).pending - Count(Claiming(s.calls[c].pc)) + Count(Claiming(t.calls[c].pc))
    requires Main(t).permits == Main(s).permits - Count(Permitted(s.calls[c].pc)) + Count(Permitted(t.calls[c].pc))
    requires |Main(t).queue| + |t.stranded| + Main(t).permits <= DEPTH
    requires t.calls[c].pc.Cleared? ==> forall x :: x in SeenBy(s, c) ==> Settled(s, x)
    ensures Tally(t)
  {
    QuietConserve(s, t, c);
    QuietOrder(s, t, c);
    CountsFollow(s, t, c);
  }

  lemma MoveInv(s: State, c: CallId, pc: Pc)
    requires Inv(s) && c in s.calls && Shape(Goto(s, c, pc))
    requires Claiming(s.calls[c].pc) == Claiming(pc) && Permitted(s.calls[c].pc) == Permitted(pc)
    requires s.calls[c].pc.Accepted? == pc.Accepted?
    requires pc.Cleared? ==> forall x :: x in SeenBy(s, c) ==> Settled(s, x)
    ensures Inv(Goto(s, c, pc))
  {
    QuietTally(s, Goto(s, c, pc), c);
  }

  /** When `pending` reads zero, or there is no outbox, everything accepted is settled. */
  lemma NothingWaiting(s: State, x: Parcel)
    requires Shape(s) && Account(s) && Conserve(s) && Faults(s)
    requires Main(s).pending == 0 && x in s.accepted
    ensures Settled(s, x)
  {
    assert x in multiset(s.accepted);
    assert Main(s).queue == [] && s.stranded == [] && HeldBy(Main(s).drain) == [];
  }

  lemma ClearInv(s: State, c: CallId, backedUp: bool)
    requires Inv(s) && c in s.calls && (s.calls[c].pc.Entered? || s.calls[c].pc.Checking?)
    requires !backedUp ==> Main(s).pending == 0
    ensures Inv(Goto(s, c, AfterCheck(s.calls[c].message, backedUp)))
  {
    var pc := AfterCheck(s.calls[c].message, backedUp);
    assert CallShape(s, s.calls[c]);
    GotoShape(s, c, pc);
    if pc.Cleared? {
      forall x | x in SeenBy(s, c)
        ensures Settled(s, x)
      {
        NothingWaiting(s, x);
      }
    }
    MoveInv(s, c, pc);
  }

  /** A call moves, and the installed outbox's counters follow it. */
  lemma CounterInv(s: State, c: CallId, pc: Pc, b: Box)
    requires Inv(s) && c in s.calls && s.installed.Some?
    requires b == Main(s).(pending := b.pending, permits := b.permits)
    requires b.pending == Main(s).pending - Count(Claiming(s.calls[c].pc)) + Count(Claiming(pc))
    requires b.permits == Main(s).permits - Count(Permitted(s.calls[c].pc)) + Count(Permitted(pc))
    requires |b.queue| + |s.stranded| + b.permits <= DEPTH
    requires !s.calls[c].pc.Accepted? && !pc.Accepted? && !pc.Cleared? && !pc.Racing?
    requires CallShape(s, s.calls[c].(pc := pc)) && (s.held || Done(pc))
    ensures Inv(Goto(PutBox(s, s.installed.value, b), c, pc))
  {
    PutMainShape(s, b);
    var u := PutBox(s, s.installed.value, b);
    assert CallShape(u, u.calls[c].(pc := pc));
    GotoShape(u, c, pc);
    QuietTally(s, Goto(u, c, pc), c);
  }

  // ---- Steps that accept a message ----

  /** `t` is `s` after call `c` was accepted, wherever its message went. */
  predicate Accepts(s: State, t: State, c: CallId) {
    && c in s.calls && !s.calls[c].pc.Accepted?
    && t.calls == s.calls[c := s.calls[c].(pc := Accepted)]
    && t.accepted == s.accepted + [Parcel(c, s.calls[c].message)]
  }

  lemma AcceptLedger(s: State, t: State, c: CallId)
    requires Ledger(s) && Accepts(s, t, c)
    ensures Ledger(t)
  {
  }

  lemma AcceptConserve(s: State, t: State, c: CallId)
    requires Conserve(s) && Accepts(s, t, c)
    requires Places(t) == Places(s) + multiset{Parcel(c, s.calls[c].message)}
    ensures Conserve(t)
  {
    AcceptLedger(s, t, c);
  }

  lemma AcceptSeen(s: State, t: State, c: CallId)
    requires Shape(s) && Accepts(s, t, c)
    ensures forall d :: SeenBy(t, d) == SeenBy(s, d)
  {
  }

  lemma AcceptCleared(s: State, t: State, c: CallId)
    requires ClearedLast(s) && Shape(s) && Accepts(s, t, c)
    requires s.wire <= t.wire && t.failed == s.failed
    ensures ClearedLast(t)
  {
    AcceptSeen(s, t, c);
    forall d, x | d in t.calls && t.calls[d].pc.Cleared? && x in SeenBy(t, d)
      ensures Settled(t, x)
    {
      assert x in SeenBy(s, d);
      assert Settled(s, x);
    }
  }

  /** A message joins the wire from the fast path. */
  lemma InlineOrder(s: State, t: State, c: CallId)
    requires Inv(s) && Accepts(s, t, c) && s.calls[c].pc.Cleared? && s.peerOpen
    requires t.wire == s.wire + [Parcel(c, s.calls[c].message)]
    requires t.failed == s.failed && Main(t) == Main(s)
    ensures Order(t)
  {
    AcceptSeen(s, t, c);
    AcceptCleared(s, t, c);
    forall i, x | 0 <= i < |t.wire| && x in SeenBy(t, t.wire[i].call)
      ensures x in t.wire[..i] || Oversized(t, x)
    {
      if i < |s.wire| {
        assert t.wire[..i] == s.wire[..i] && x in SeenBy(s, s.wire[i].call);
        assert Oversized(s, x) ==> Oversized(t, x);
      } else {
        assert x in SeenBy(s, c) && Settled(s, x);
        assert t.wire[..i] == s.wire;
      }
    }
    assert Line(t) == Line(s);
    forall i, x | 0 <= i < |Line(t)| && x in SeenBy(t, Line(t)[i].call)
      ensures Settled(t, x) || x in Line(t)[..i]
    {
      assert x in SeenBy(s, Line(s)[i].call);
      assert Settled(s, x) ==> Settled(t, x);
    }
  }

  /** A message joins the back of the queue. */
  lemma EnqueueOrder(s: State, t: State, c: CallId)
    requires Inv(s) && Accepts(s, t, c) && s.stranded == []
    requires t.wire == s.wire && t.failed == s.failed && Main(t).drain == Main(s).drain
    requires Main(t).queue == Main(s).queue + [Parcel(c, s.calls[c].message)]
    ensures Order(t)
  {
    AcceptSeen(s, t, c);
    AcceptCleared(s, t, c);
    SameWireOrder(s, t);
    var p := Parcel(c, s.calls[c].message);
    assert Line(t) == Line(s) + [p];
    forall i, x | 0 <= i < |Line(t)| && x in SeenBy(t, Line(t)[i].call)
      ensures Settled(t, x) || x in Line(t)[..i]
    {
      if i < |Line(s)| {
        assert Line(t)[..i] == Line(s)[..i];
        assert Settled(s, x) ==> Settled(t, x);
      } else {
        assert Line(t)[..i] == Line(s);
        assert x in SeenBy(s, c);
        AcceptedIsSomewhere(s, x);
      }
    }
  }

  /** With nothing stranded, what was accepted is settled or in line. */
  lemma AcceptedIsSomewhere(s: State, x: Parcel)
    requires Conserve(s) && s.stranded == [] && x in s.accepted
    ensures Settled(s, x) || x in Line(s)
  {
    assert x in multiset(s.accepted) && x in Places(s);
    assert x in s.wire || x in s.failed || x in HeldBy(Main(s).drain) || x in Main(s).queue;
  }

  lemma InlineAccount(s: State, c: CallId)
    requires Account(s) && c in s.calls && s.calls[c].pc.Cleared?
    ensures Account(Inlined(s, c))
  {
    var t := Inlined(s, c);
    GotoClaimers(s, c, Accepted);
    GotoHolders(s, c, Accepted);
    assert Claimers(t) == Claimers(Goto(s, c, Accepted)) && Holders(t) == Holders(Goto(s, c, Accepted));
  }

  lemma InlineShape(s: State, c: CallId)
    requires Shape(s) && c in s.calls && s.calls[c].pc.Cleared?
    ensures Shape(Inlined(s, c))
  {
  }

  lemma InlineConserve(s: State, c: CallId)
    requires Conserve(s) && c in s.calls && s.calls[c].pc.Cleared?
    ensures Conserve(Inlined(s, c))
  {
  }

  lemma InlineFaults(s: State, c: CallId)
    requires Faults(s) && c in s.calls && s.peerOpen && Sendable(s.calls[c].message)
    ensures Faults(Inlined(s, c))
  {
  }

  lemma InlineInv(s: State, c: CallId)
    requires Inv(s) && c in s.calls && s.calls[c].pc.Cleared? && s.peerOpen && Sendable(s.calls[c].message)
    ensures Inv(Inlined(s, c))
  {
    var t := Inlined(s, c);
    InlineShape(s, c);
    InlineAccount(s, c);
    InlineConserve(s, c);
    InlineFaults(s, c);
    assert Main(t) == Main(s);
    InlineOrder(s, t, c);
  }

  lemma EnqueueAccount(s: State, c: CallId, b: Box)
    requires Account(s) && c in s.calls && s.installed.Some? && s.installed.value in s.boxes
    requires s.calls[c].pc.Claimed? || s.calls[c].pc.Committed?
    requires b == Main(s).(permits := Main(s).permits - Count(Permitted(s.calls[c].pc)))
    requires s.calls[c].pc.Claimed? ==> HasRoom(b) && s.stranded == []
    ensures Account(Enqueue(s, c, s.installed.value, b))
  {
    var p := Parcel(c, s.calls[c].message);
    var u := PutBox(s, s.installed.value, b.(queue := b.queue + [p]));
    assert Claimers(u) == Claimers(s) && Holders(u) == Holders(s);
    GotoClaimers(u, c, Accepted);
    GotoHolders(u, c, Accepted);
    var t := Enqueue(s, c, s.installed.value, b);
    assert Main(t) == b.(queue := b.queue + [p]);
    assert Claimers(t) == Claimers(Goto(u, c, Accepted)) && Holders(t) == Holders(Goto(u, c, Accepted));
  }

  lemma EnqueueInv(s: State, c: CallId, b: Box)
    requires Inv(s) && c in s.calls && s.installed.Some?
    requires s.calls[c].pc.Claimed? || s.calls[c].pc.Committed?
    requires b == Main(s).(permits := Main(s).permits - Count(Permitted(s.calls[c].pc)))
    requires ReceiverOpen(b) && (s.calls[c].pc.Claimed? ==> HasRoom(b))
    ensures Inv(Enqueue(s, c, s.installed.value, b))
  {
    var o := s.installed.value;
    var p := Parcel(c, s.calls[c].message);
    var b' := b.(queue := b.queue + [p]);
    var t := Enqueue(s, c, o, b);
    assert CallShape(s, s.calls[c]);
    PutMainShape(s, b');
    var u := PutBox(s, o, b');
    assert CallShape(u, u.calls[c]);
    GotoShape(u, c, Accepted);
    LogShape(Goto(u, c, Accepted), t);
    EnqueueAccount(s, c, b);
    assert Main(t) == b';
    AcceptConserve(s, t, c);
    EnqueueOrder(s, t, c);
  }

  lemma StrandOrder(s: State, t: State, c: CallId)
    requires Inv(s) && Accepts(s, t, c)
    requires t.wire == s.wire && t.failed == s.failed
    requires Main(t).drain == Main(s).drain && Main(t).queue == Main(s).queue
    ensures Order(t)
  {
    AcceptSeen(s, t, c);
    AcceptCleared(s, t, c);
    SameWireOrder(s, t);
    assert Line(t) == Line(s);
    forall i, x | 0 <= i < |Line(t)| && x in SeenBy(t, Line(t)[i].call)
      ensures Settled(t, x) || x in Line(t)[..i]
    {
      assert x in SeenBy(s, Line(s)[i].call);
      assert Settled(s, x) ==> Settled(t, x);
    }
  }

  lemma StrandAccount(s: State, c: CallId, b: Box)
    requires Account(s) && c in s.calls && s.calls[c].pc.Committed? && s.installed.Some? && s.installed.value in s.boxes
    requires b == AddPermits(Main(s), -1)
    ensures Account(Strand(s, c, s.installed.value, b))
  {
    var t := Strand(s, c, s.installed.value, b);
    var u := PutBox(s, s.installed.value, b);
    assert Claimers(u) == Claimers(s) && Holders(u) == Holders(s);
    GotoClaimers(u, c, Accepted);
    GotoHolders(u, c, Accepted);
    assert Claimers(t) == Claimers(Goto(u, c, Accepted)) && Holders(t) == Holders(Goto(u, c, Accepted));
  }

  lemma StrandInv(s: State, c: CallId, b: Box)
    requires Inv(s) && c in s.calls && s.installed.Some? && s.calls[c].pc.Committed?
    requires b == AddPermits(Main(s), -1) && b.drain.Stopped?
    ensures Inv(Strand(s, c, s.installed.value, b))
  {
    var o := s.installed.value;
    var t := Strand(s, c, o, b);
    assert CallShape(s, s.calls[c]);
    PutMainShape(s, b);
    var u := PutBox(s, o, b);
    assert CallShape(u, u.calls[c]);
    GotoShape(u, c, Accepted);
    LogShape(Goto(u, c, Accepted), t);
    StrandAccount(s, c, b);
    assert Main(t) == b;
    AcceptConserve(s, t, c);
    StrandOrder(s, t, c);
  }

  // ---- Calls starting, and the race to build the outbox ----

  /** Whatever is somewhere was accepted. */
  lemma PlacedIsAccepted(s: State, p: Parcel)
    requires Conserve(s) && (p in s.wire || p in Line(s))
    ensures IsAccepted(s, p)
  {
    assert p in HeldBy(Main(s).drain) || p in Main(s).queue || p in s.wire;
    assert p in Places(s) && p in multiset(s.accepted);
  }

  lemma BeginOrder(s: State, t: State, c: CallId, k: Call)
    requires Conserve(s) && Order(s) && c !in s.calls && !k.pc.Cleared?
    requires t == s.(calls := s.calls[c := k])
    ensures Order(t)
  {
    assert forall d :: d != c ==> SeenBy(t, d) == SeenBy(s, d);
    assert Main(t) == Main(s) && Line(t) == Line(s);
    forall d, x | d in t.calls && t.calls[d].pc.Cleared? && x in SeenBy(t, d)
      ensures Settled(t, x)
    {
      assert x in SeenBy(s, d) && Settled(s, x);
    }
    forall i | 0 <= i < |s.wire|
      ensures SeenBy(t, s.wire[i].call) == SeenBy(s, s.wire[i].call)
    {
      PlacedIsAccepted(s, s.wire[i]);
    }
    SameWireOrder(s, t);
    forall i, x | 0 <= i < |Line(t)| && x in SeenBy(t, Line(t)[i].call)
      ensures Settled(t, x) || x in Line(t)[..i]
    {
      PlacedIsAccepted(s, Line(s)[i]);
      assert x in SeenBy(s, Line(s)[i].call);
      assert Settled(s, x) ==> Settled(t, x);
    }
  }

  lemma BeginShape(s: State, c: CallId, m: Message, waits: bool)
    requires Shape(s) && s.held && c !in s.calls
    ensures Shape(Begun(s, c, m, waits))
  {
  }

  lemma BeginConserve(s: State, t: State, c: CallId, k: Call)
    requires Conserve(s) && Faults(s) && c !in s.calls && !k.pc.Accepted?
    requires t == s.(calls := s.calls[c := k])
    ensures Conserve(t) && Faults(t)
  {
    assert Main(t) == Main(s);
    assert forall p :: IsAccepted(s, p) ==> IsAccepted(t, p);
  }

  lemma BeginAccount(s: State, t: State, c: CallId, k: Call)
    requires Account(s) && c !in s.calls && !Claiming(k.pc) && !Permitted(k.pc)
    requires t == s.(calls := s.calls[c := k])
    ensures Account(t)
  {
    assert Main(t) == Main(s);
    assert Claimers(t) == Claimers(s) && Holders(t) == Holders(s);
  }

  lemma BeginTally(s: State, t: State, c: CallId, k: Call)
    requires Tally(s) && c !in s.calls && !k.pc.Cleared? && !k.pc.Accepted? && !Claiming(k.pc) && !Permitted(k.pc)
    requires t == s.(calls := s.calls[c := k])
    ensures Tally(t)
  {
    BeginOrder(s, t, c, k);
    BeginConserve(s, t, c, k);
    BeginAccount(s, t, c, k);
  }

  lemma BeginInv(s: State, c: CallId, m: Message, waits: bool)
    requires Inv(s) && s.held && c !in s.calls
    ensures Inv(Begun(s, c, m, waits))
  {
    var t := Begun(s, c, m, waits);
    BeginShape(s, c, m, waits);
    BeginTally(s, t, c, t.calls[c]);
  }

  lemma BuildShape(s: State, c: CallId, o: BoxId)
    requires Shape(s) && Enabled(s, Build(c, o, true))
    ensures Shape(Goto(PutBox(s, o, NEW_BOX), c, Racing(o, false)))
  {
  }

  lemma BuildInv(s: State, c: CallId, o: BoxId)
    requires Inv(s) && Enabled(s, Build(c, o, true))
    ensures Inv(Goto(PutBox(s, o, NEW_BOX), c, Racing(o, false)))
  {
    var u := PutBox(s, o, NEW_BOX);
    var t := Goto(u, c, Racing(o, false));
    BuildShape(s, c, o);
    assert Main(t) == Main(s);
    QuietTally(s, t, c);
  }

  lemma WonShape(s: State, c: CallId)
    requires Shape(s) && Enabled(s, Install(c)) && s.installed.None?
    ensures Shape(Installed(s, c)) && Main(Installed(s, c)) == Main(s)
  {
  }

  lemma LostShape(s: State, c: CallId)
    requires Shape(s) && Enabled(s, Install(c)) && s.installed.Some?
    ensures Shape(Installed(s, c)) && Main(Installed(s, c)) == Main(s)
  {
  }

  lemma InstallInv(s: State, c: CallId)
    requires Inv(s) && Enabled(s, Install(c))
    ensures Inv(Installed(s, c))
  {
    var t := Installed(s, c);
    assert CallShape(s, s.calls[c]);
    if s.installed.Some? {
      LostShape(s, c);
    } else {
      WonShape(s, c);
    }
    QuietTally(s, t, c);
  }

  // ---- The drain ----

  /** An outbox whose drain takes a step other than finishing is the installed one. */
  lemma BusyIsMain(s: State, o: BoxId)
    requires Shape(s) && o in s.boxes
    requires s.boxes[o].queue != [] || !(s.boxes[o].drain.Receiving? || s.boxes[o].drain.Finished?)
    ensures s.installed == Some(o)
  {
  }

  /** The drain's steps leave the calls and the log of acceptances alone. */
  predicate DrainOnly(s: State, t: State) {
    && s.installed.Some? && s.installed.value in s.boxes
    && t.calls == s.calls && t.accepted == s.accepted && t.installed == s.installed
    && t.held == s.held && t.peerOpen == s.peerOpen && t.read == s.read
    && s.wire <= t.wire
    && s.installed.value in t.boxes
    && t.boxes == s.boxes[s.installed.value := Main(t)]
    && Main(t).attached == Main(s).attached && Main(t).permits == Main(s).permits
  }

  lemma DrainLedger(s: State, t: State)
    requires Conserve(s) && DrainOnly(s, t) && Places(t) == Places(s)
    ensures Conserve(t)
  {
  }

  lemma DrainAccount(s: State, t: State)
    requires Account(s) && DrainOnly(s, t)
    requires Main(t).pending - |Main(t).queue| - Owed(Main(t).drain) - |t.stranded|
          == Main(s).pending - |Main(s).queue| - Owed(Main(s).drain) - |s.stranded|
    requires |Main(t).queue| + |t.stranded| <= |Main(s).queue| + |s.stranded|
    ensures Account(t)
  {
  }

  /** Messages leave the line only from the front, for the wire or the failures. */
  lemma DrainClearedLast(s: State, t: State)
    requires ClearedLast(s) && DrainOnly(s, t) && s.failed <= t.failed
    ensures ClearedLast(t)
  {
    assert forall d :: SeenBy(t, d) == SeenBy(s, d);
    forall d, x | d in t.calls && t.calls[d].pc.Cleared? && x in SeenBy(t, d)
      ensures Settled(t, x)
    {
      assert x in SeenBy(s, d) && Settled(s, x);
    }
  }

  lemma SameLineOrder(s: State, t: State)
    requires Order(s) && DrainOnly(s, t) && s.failed <= t.failed
    requires t.wire == s.wire && (Line(t) == Line(s) || Line(t) == [])
    ensures Order(t)
  {
    DrainClearedLast(s, t);
    assert forall d :: SeenBy(t, d) == SeenBy(s, d);
    SameWireOrder(s, t);
    forall i, x | 0 <= i < |Line(t)| && x in SeenBy(t, Line(t)[i].call)
      ensures Settled(t, x) || x in Line(t)[..i]
    {
      assert x in SeenBy(s, Line(s)[i].call);
      assert Settled(s, x) ==> Settled(t, x);
    }
  }

  lemma AdvanceOrder(s: State, t: State)
    requires Order(s) && DrainOnly(s, t) && s.failed <= t.failed
    requires Line(s) != [] && Line(t) == Line(s)[1..] && Settled(t, Line(s)[0])
    requires t.wire == s.wire || (t.wire == s.wire + [Line(s)[0]] && s.peerOpen && Faults(s))
    ensures Order(t)
  {
    DrainClearedLast(s, t);
    assert forall d :: SeenBy(t, d) == SeenBy(s, d);
    forall i, x | 0 <= i < |t.wire| && x in SeenBy(t, t.wire[i].call)
      ensures x in t.wire[..i] || Oversized(t, x)
    {
      if i < |s.wire| {
        assert t.wire[..i] == s.wire[..i] && x in SeenBy(s, s.wire[i].call);
        assert Oversized(s, x) ==> Oversized(t, x);
      } else {
        assert t.wire[..i] == s.wire;
        assert x in SeenBy(s, Line(s)[0].call);
        assert Line(s)[..0] == [];
        assert Settled(s, x);
      }
    }
    forall i, x | 0 <= i < |Line(t)| && x in SeenBy(t, Line(t)[i].call)
      ensures Settled(t, x) || x in Line(t)[..i]
    {
      assert x in SeenBy(s, Line(s)[i + 1].call);
      assert Line(s)[..i + 1] == [Line(s)[0]] + Line(t)[..i];
      assert Settled(s, x) ==> Settled(t, x);
    }
  }

  lemma DrainTally(s: State, t: State)
    requires Tally(s) && DrainOnly(s, t) && Places(t) == Places(s) && Faults(t) && Order(t)
    requires Main(t).pending - |Main(t).queue| - Owed(Main(t).drain) - |t.stranded|
          == Main(s).pending - |Main(s).queue| - Owed(Main(s).drain) - |s.stranded|
    requires |Main(t).queue| + |t.stranded| <= |Main(s).queue| + |s.stranded|
    ensures Tally(t)
  {
    DrainLedger(s, t);
    DrainAccount(s, t);
  }

  /** The installed outbox's box and the logs after one step of its drain. */
  function Drained(s: State, b: Box, wire: seq<Parcel>, failed: seq<Parcel>, stranded: seq<Parcel>): State
    requires s.installed.Some?
  {
    PutBox(s, s.installed.value, b).(wire := wire, failed := failed, stranded := stranded)
  }

  lemma ReceiveTally(s: State)
    requires Tally(s) && s.installed.Some? && s.installed.value in s.boxes
    requires Main(s).drain.Receiving? && Main(s).queue != []
    ensures Tally(PutBox(s, s.installed.value,
                         Main(s).(queue := Main(s).queue[1..], drain := Holding(Main(s).queue[0]))))
  {
    var b := Main(s);
    var t := PutBox(s, s.installed.value, b.(queue := b.queue[1..], drain := Holding(b.queue[0])));
    assert b.queue == [b.queue[0]] + b.queue[1..];
    assert Line(t) == Line(s);
    SameLineOrder(s, t);
    DrainTally(s, t);
  }

  /** The message the drain holds leaves the line, for the wire or for the failures. */
  lemma AdvanceTally(s: State, t: State)
    requires Tally(s) && DrainOnly(s, t) && Main(s).drain.Holding?
    requires t == Drained(s, Main(s).(drain := Main(t).drain), t.wire, t.failed, s.stranded)
    requires Faults(t)
    requires
      || (Main(t).drain.Delivered? && t.wire == s.wire + [Main(s).drain.parcel] && t.failed == s.failed && s.peerOpen)
      || (Main(t).drain.Faulted? && t.wire == s.wire && t.failed == s.failed + [Main(s).drain.parcel])
    ensures Tally(t)
  {
    var p := Main(s).drain.parcel;
    assert Line(s)[0] == p && Line(t) == Line(s)[1..];
    assert Settled(t, p) by {
      if Main(t).drain.Delivered? {
        assert t.wire[|s.wire|] == p;
      } else {
        assert t.failed[|s.failed|] == p;
      }
    }
    AdvanceOrder(s, t);
    DrainTally(s, t);
  }

  lemma DeliverFaults(s: State)
    requires Faults(s) && s.installed.Some? && s.installed.value in s.boxes
    requires Main(s).drain.Holding? && s.peerOpen && Sendable(Main(s).drain.parcel.message)
    ensures Faults(Drained(s, Main(s).(drain := Delivered), s.wire + [Main(s).drain.parcel], s.failed, s.stranded))
  {
  }

  lemma FaultFaults(s: State)
    requires Faults(s) && s.installed.Some? && s.installed.value in s.boxes
    requires Main(s).drain.Holding? && (!s.peerOpen || !Sendable(Main(s).drain.parcel.message))
    ensures Faults(Drained(s, Main(s).(drain := Faulted), s.wire, s.failed + [Main(s).drain.parcel], s.stranded))
  {
  }

  lemma ReleaseFaults(s: State, b: Box)
    requires Faults(s) && s.installed.Some? && s.installed.value in s.boxes
    requires Main(s).drain.Delivered? || Main(s).drain.Faulted?
    requires b == Released(Main(s))
    ensures Faults(PutBox(s, s.installed.value, b))
  {
  }

  lemma ReleaseTally(s: State, b: Box)
    requires Tally(s) && s.installed.Some? && s.installed.value in s.boxes
    requires Main(s).drain.Delivered? || Main(s).drain.Faulted?
    requires b == Released(Main(s))
    ensures Tally(PutBox(s, s.installed.value, b))
  {
    var t := PutBox(s, s.installed.value, b);
    ReleaseFaults(s, b);
    assert DrainOnly(s, t) && Main(t) == b;
    assert Line(t) == Line(s);
    SameLineOrder(s, t);
    DrainTally(s, t);
  }

  lemma StopTally(s: State)
    requires Tally(s) && s.installed.Some? && s.installed.value in s.boxes && Main(s).drain.Stopping?
    ensures Tally(Drained(s, Main(s).(queue := [], drain := Stopped), s.wire, s.failed, s.stranded + Main(s).queue))
  {
    var t := Drained(s, Main(s).(queue := [], drain := Stopped), s.wire, s.failed, s.stranded + Main(s).queue);
    SameLineOrder(s, t);
    DrainTally(s, t);
  }

  lemma FinishTally(s: State)
    requires Tally(s) && s.installed.Some? && s.installed.value in s.boxes
    requires Main(s).drain.Receiving? && Main(s).queue == [] && !s.held
    ensures Tally(PutBox(s, s.installed.value, Main(s).(drain := Finished)))
  {
    var t := PutBox(s, s.installed.value, Main(s).(drain := Finished));
    SameLineOrder(s, t);
    DrainTally(s, t);
  }

  lemma DrainedShape(s: State, b: Box, wire: seq<Parcel>, failed: seq<Parcel>, stranded: seq<Parcel>)
    requires Shape(s) && s.installed.Some? && b.attached == s.held && s.wire <= wire
    ensures Shape(Drained(s, b, wire, failed, stranded))
  {
  }

  lemma SendInv(s: State, o: BoxId, outcome: Outcome)
    requires Inv(s) && Enabled(s, DrainSend(o, outcome))
    ensures Inv(Apply(s, DrainSend(o, outcome)))
  {
    BusyIsMain(s, o);
    var t := Apply(s, DrainSend(o, outcome));
    var p := Main(s).drain.parcel;
    match outcome {
      case Sent =>
        DrainedShape(s, Main(s).(drain := Delivered), s.wire + [p], s.failed, s.stranded);
        DeliverFaults(s);
        AdvanceTally(s, t);
      case WouldBlock =>
      case Broken =>
        DrainedShape(s, Main(s).(drain := Faulted), s.wire, s.failed + [p], s.stranded);
        FaultFaults(s);
        AdvanceTally(s, t);
    }
  }

  lemma ReceiveInv(s: State, o: BoxId)
    requires Inv(s) && Enabled(s, DrainReceive(o))
    ensures Inv(Apply(s, DrainReceive(o)))
  {
    BusyIsMain(s, o);
    PutMainShape(s, Main(s).(queue := Main(s).queue[1..], drain := Holding(Main(s).queue[0])));
    ReceiveTally(s);
  }

  lemma ReleaseInv(s: State, o: BoxId)
    requires Inv(s) && Enabled(s, DrainRelease(o))
    ensures Inv(Apply(s, DrainRelease(o)))
  {
    BusyIsMain(s, o);
    var b := Released(Main(s));
    PutMainShape(s, b);
    ReleaseTally(s, b);
  }

  lemma StopInv(s: State, o: BoxId)
    requires Inv(s) && Enabled(s, DrainStop(o))
    ensures Inv(Apply(s, DrainStop(o)))
  {
    BusyIsMain(s, o);
    DrainedShape(s, Main(s).(queue := [], drain := Stopped), s.wire, s.failed, s.stranded + Main(s).queue);
    StopTally(s);
  }

  lemma FinishInv(s: State, o: BoxId)
    requires Inv(s) && Enabled(s, DrainFinish(o))
    ensures Inv(Apply(s, DrainFinish(o)))
  {
    if s.installed == Some(o) {
      PutMainShape(s, Main(s).(drain := Finished));
      FinishTally(s);
    } else {
      SpareInv(s, o, s.boxes[o].(drain := Finished));
    }
  }

  /** An outbox that lost the race to be installed retires. */
  lemma SpareInv(s: State, o: BoxId, b: Box)
    requires Inv(s) && o in s.boxes && s.installed != Some(o) && !s.boxes[o].attached && Unused(b)
    ensures Inv(PutBox(s, o, b))
  {
    var t := PutBox(s, o, b);
    assert Main(t) == Main(s);
    forall c | c in t.calls
      ensures CallShape(t, t.calls[c])
    {
      assert CallShape(s, s.calls[c]);
    }
    EnvironmentTally(s, t);
  }

  /** Steps of the environment leave calls, counters and messages alone. */
  lemma EnvironmentTally(s: State, t: State)
    requires Tally(s)
    requires t.calls == s.calls && t.accepted == s.accepted && t.wire == s.wire
    requires t.failed == s.failed && t.stranded == s.stranded && (t.peerOpen ==> s.peerOpen)
    requires t.held ==> s.held
    requires Main(t) == Main(s).(attached := Main(t).attached)
    ensures Tally(t)
  {
    assert Claimers(t) == Claimers(s) && Holders(t) == Holders(s);
    assert forall p :: IsAccepted(t, p) == IsAccepted(s, p);
    assert forall d :: SeenBy(t, d) == SeenBy(s, d);
    assert forall x :: Settled(s, x) == Settled(t, x);
    assert Line(t) == Line(s);
    SameWireOrder(s, t);
  }

  lemma DropShape(s: State)
    requires Shape(s) && Enabled(s, DropLastRef)
    ensures Shape(Apply(s, DropLastRef))
  {
  }

  lemma EnvironmentInv(s: State, e: Event)
    requires Inv(s) && Enabled(s, e) && (e.DropLastRef? || e.PeerRead? || e.PeerClose?)
    ensures Inv(Apply(s, e))
  {
    var t := Apply(s, e);
    if e.DropLastRef? {
      DropShape(s);
    } else {
      LogShape(s, t);
    }
    EnvironmentTally(s, t);
  }

  lemma EndingInv(s: State, e: Event)
    requires Inv(s) && Enabled(s, e) && (e.DrainRelease? || e.DrainStop? || e.DrainFinish?)
    ensures Inv(Apply(s, e))
  {
    match e {
      case DrainRelease(o) => ReleaseInv(s, o);
      case DrainStop(o) => StopInv(s, o);
      case DrainFinish(o) => FinishInv(s, o);
    }
  }

  // ---- The calls ----

  lemma StayInv(s: State, c: CallId, pc: Pc)
    requires Inv(s) && c in s.calls && CallShape(s, s.calls[c].(pc := pc)) && s.held
    requires Claiming(s.calls[c].pc) == Claiming(pc) && Permitted(s.calls[c].pc) == Permitted(pc)
    requires !s.calls[c].pc.Accepted? && !pc.Accepted? && !pc.Cleared? && !pc.Racing?
    ensures Inv(Goto(s, c, pc))
  {
    GotoShape(s, c, pc);
    MoveInv(s, c, pc);
  }

  lemma LookInv(s: State, c: CallId)
    requires Inv(s) && Enabled(s, LookForOutbox(c))
    ensures Inv(Apply(s, LookForOutbox(c)))
  {
    assert CallShape(s, s.calls[c]);
    if s.installed.Some? {
      StayInv(s, c, Checking(s.installed.value));
    } else {
      ClearInv(s, c, false);
    }
  }

  lemma LoadInv(s: State, c: CallId)
    requires Inv(s) && Enabled(s, LoadPending(c))
    ensures Inv(Apply(s, LoadPending(c)))
  {
    assert CallShape(s, s.calls[c]);
    ClearInv(s, c, Main(s).pending != 0);
  }

  lemma GetInv(s: State, c: CallId)
    requires Inv(s) && Enabled(s, GetOutbox(c))
    ensures Inv(Apply(s, GetOutbox(c)))
  {
    assert CallShape(s, s.calls[c]);
    var parking := s.calls[c].pc.parking;
    StayInv(s, c, if s.installed.Some? then WithOutbox(s.installed.value, parking) else Building(parking));
  }

  lemma BuildStepInv(s: State, c: CallId, o: BoxId, built: bool)
    requires Inv(s) && Enabled(s, Build(c, o, built))
    ensures Inv(Apply(s, Build(c, o, built)))
  {
    assert CallShape(s, s.calls[c]);
    if built {
      BuildInv(s, c, o);
    } else {
      StayInv(s, c, Returned(Closed));
    }
  }

  lemma InlineSendInv(s: State, c: CallId, outcome: Outcome)
    requires Inv(s) && Enabled(s, InlineSend(c, outcome))
    ensures Inv(Apply(s, InlineSend(c, outcome)))
  {
    assert CallShape(s, s.calls[c]);
    match outcome {
      case Sent => InlineInv(s, c);
      case WouldBlock =>
        GotoShape(s, c, Queueing(false));
        MoveInv(s, c, Queueing(false));
      case Broken =>
        GotoShape(s, c, Returned(Closed));
        MoveInv(s, c, Returned(Closed));
    }
  }

  lemma PushInv(s: State, c: CallId)
    requires Inv(s) && Enabled(s, Push(c))
    ensures Inv(Apply(s, Push(c)))
  {
    assert CallShape(s, s.calls[c]);
    var o := s.calls[c].pc.box;
    if !ReceiverOpen(Main(s)) {
      GotoShape(s, c, Refused(o, Closed));
      MoveInv(s, c, Refused(o, Closed));
    } else if !HasRoom(Main(s)) {
      GotoShape(s, c, Refused(o, Full));
      MoveInv(s, c, Refused(o, Full));
    } else {
      EnqueueInv(s, c, Main(s));
    }
  }

  lemma PermitSendInv(s: State, c: CallId)
    requires Inv(s) && Enabled(s, PermitSend(c))
    ensures Inv(Apply(s, PermitSend(c)))
  {
    assert CallShape(s, s.calls[c]);
    var b := AddPermits(Main(s), -1);
    if ReceiverOpen(b) {
      EnqueueInv(s, c, b);
    } else {
      StrandInv(s, c, b);
    }
  }

  lemma GiveBackInv(s: State, c: CallId, pc: Pc)
    requires Inv(s) && c in s.calls && (s.calls[c].pc.Parked? || s.calls[c].pc.Granted?)
    requires s.calls[c].pc.box in s.boxes
    requires pc == Cancelled || pc == Returned(Closed)
    ensures Inv(Goto(GiveBack(s, c), c, pc))
  {
    assert CallShape(s, s.calls[c]);
    if s.calls[c].pc.Granted? {
      CounterInv(s, c, pc, AddPermits(Main(s), -1));
    } else {
      GotoShape(s, c, pc);
      MoveInv(s, c, pc);
    }
  }

  lemma ClaimInv(s: State, c: CallId)
    requires Inv(s) && Enabled(s, Claim(c))
    ensures Inv(Apply(s, Claim(c)))
  {
    assert CallShape(s, s.calls[c]);
    var o := s.calls[c].pc.box;
    var b := AddPending(Main(s), 1);
    assert s.installed == Some(o);
    CounterInv(s, c, Claimed(o), b);
    assert Apply(s, Claim(c)) == Goto(PutBox(s, o, b), c, Claimed(o));
  }

  lemma WithdrawInv(s: State, c: CallId)
    requires Inv(s) && Enabled(s, Withdraw(c))
    ensures Inv(Apply(s, Withdraw(c)))
  {
    assert CallShape(s, s.calls[c]);
    var error := s.calls[c].pc.error;
    var pc := if error.Full? && s.calls[c].waits then Queueing(true) else Returned(error);
    CounterInv(s, c, pc, AddPending(Main(s), -1));
  }

  lemma GrantInv(s: State, c: CallId)
    requires Inv(s) && Enabled(s, Grant(c))
    ensures Inv(Apply(s, Grant(c)))
  {
    assert CallShape(s, s.calls[c]);
    CounterInv(s, c, Granted(s.calls[c].pc.box), AddPermits(Main(s), 1));
  }

  lemma CommitInv(s: State, c: CallId)
    requires Inv(s) && Enabled(s, Commit(c))
    ensures Inv(Apply(s, Commit(c)))
  {
    assert CallShape(s, s.calls[c]);
    CounterInv(s, c, Committed(s.calls[c].pc.box), AddPending(Main(s), 1));
  }

  lemma CallInv(s: State, e: Event)
    requires Inv(s) && Enabled(s, e)
    requires !e.DrainReceive? && !e.DrainSend? && !e.DrainRelease? && !e.DrainStop? && !e.DrainFinish?
    requires !e.DropLastRef? && !e.PeerRead? && !e.PeerClose?
    ensures Inv(Apply(s, e))
  {
    match e {
      case Begin(c, m, waits) => BeginInv(s, c, m, waits);
      case LookForOutbox(c) => LookInv(s, c);
      case LoadPending(c) => LoadInv(s, c);
      case InlineSend(c, outcome) => InlineSendInv(s, c, outcome);
      case GetOutbox(c) => GetInv(s, c);
      case Build(c, o, built) => BuildStepInv(s, c, o, built);
      case Install(c) => InstallInv(s, c);
      case Claim(c) => ClaimInv(s, c);
      case Push(c) => PushInv(s, c);
      case Withdraw(c) => WithdrawInv(s, c);
      case Grant(c) => GrantInv(s, c);
      case Commit(c) => CommitInv(s, c);
      case PermitSend(c) => PermitSendInv(s, c);
      case ReserveClosed(c) => GiveBackInv(s, c, Returned(Closed));
      case Cancel(c) => GiveBackInv(s, c, Cancelled);
    }
  }

  /** Every step keeps the invariant. */
  lemma InvStep(s: State, e: Event)
    requires Inv(s)
    ensures Inv(Step(s, e))
  {
    if Enabled(s, e) {
      if e.DropLastRef? || e.PeerRead? || e.PeerClose? {
        EnvironmentInv(s, e);
      } else if e.DrainReceive? {
        ReceiveInv(s, e.box);
      } else if e.DrainSend? {
        SendInv(s, e.box, e.outcome);
      } else if e.DrainRelease? || e.DrainStop? || e.DrainFinish? {
        EndingInv(s, e);
      } else {
        CallInv(s, e);
      }
    }
  }

  lemma InitialInv()
    ensures Inv(INITIAL)
  {
  }

  lemma {:induction false} InvAfter(s: State, es: seq<Event>)
    requires Inv(s)
    ensures Inv(After(s, es))
    decreases |es|
  {
    if es != [] {
      InvStep(s, es[0]);
      InvAfter(Step(s, es[0]), es[1..]);
    }
  }

  /** Every reachable state keeps the invariant: any schedule, any number of calls. */
  lemma Reachable(es: seq<Event>)
    ensures Inv(After(INITIAL, es))
  {
    InitialInv();
    InvAfter(INITIAL, es);
  }
}
