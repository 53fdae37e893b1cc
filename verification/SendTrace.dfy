/** Schedules as the running code leaves them behind: whose step each event is, what was asked of the
    kernel and what of everybody else, and what a call comes to when it runs alone. */
module SendTrace {
  import opened Wire
  import opened SendModel
  import opened SendInvariant
  import opened SendOrder
  import opened SendFates

  /** Who is running: everyone else is interference. */
  datatype Actor = Caller(call: CallId) | DrainOf(box: BoxId)

  predicate Own(actor: Actor, e: Event) {
    match actor
    case Caller(c) => (OfCall(e) || e.Begin?) && e.call == c
    case DrainOf(o) =>
      (e.DrainReceive? || e.DrainSend? || e.DrainRelease? || e.DrainStop? || e.DrainFinish?) && e.box == o
  }

  /** What the actor relies on while others run. */
  predicate Undisturbed(actor: Actor, s: State, t: State) {
    match actor
    case Caller(c) => c in s.calls ==> c in t.calls && t.calls[c] == s.calls[c]
    case DrainOf(o) => o in s.boxes ==> o in t.boxes && t.boxes[o].drain == s.boxes[o].drain
  }

  lemma ForeignStep(actor: Actor, s: State, e: Event)
    requires !Own(actor, e)
    ensures Undisturbed(actor, s, Step(s, e))
  {
    match actor {
      case Caller(c) =>
        CallsStep(s, e);
        if Enabled(s, e) && c in s.calls && Step(s, e).calls[c].pc != s.calls[c].pc {
          OwnStep(s, e, c);
        }
      case DrainOf(o) =>
        if o in s.boxes && (OfCall(e) || e.Begin?) {
          CallsKeepDrains(s, e, o);
        }
    }
  }

  /** The steps among these that are somebody else's. */
  function Others(actor: Actor, es: seq<Event>): seq<Event>
    decreases |es|
  {
    if es == [] then []
    else
      var n := |es| - 1;
      Others(actor, es[..n]) + (if Own(actor, es[n]) then [] else [es[n]])
  }

  lemma {:induction false} OthersAreForeign(actor: Actor, es: seq<Event>, e: Event)
    requires e in Others(actor, es)
    ensures e in es && !Own(actor, e)
    decreases |es|
  {
    var n := |es| - 1;
    if e in Others(actor, es[..n]) {
      OthersAreForeign(actor, es[..n], e);
    }
  }

  lemma OthersSnoc(actor: Actor, es: seq<Event>, i: nat)
    requires i < |es|
    ensures Others(actor, es[..i + 1]) == Others(actor, es[..i]) + (if Own(actor, es[i]) then [] else [es[i]])
  {
    assert es[..i + 1][..i] == es[..i];
  }

  /** What the kernel answers the actor: whether the socket has no room, and whether an outbox can be
      built. `None` where it is not asked. */
  datatype Answers = Answers(full: Option<bool>, builds: Option<bool>)

  const UNASKED := Answers(None, None)

  predicate Within(a: Answers, b: Answers) {
    (a.full.Some? ==> b.full == a.full) && (a.builds.Some? ==> b.builds == a.builds)
  }

  /** A step of the actor's own, with the answer it was to be given. */
  predicate AsTold(actor: Actor, told: Answers, e: Event) {
    && Own(actor, e) && !e.Cancel?
    && (e.Build? ==> told.builds == Some(e.built))
    && (e.InlineSend? ==> told.full.Some?)
    && ((e.InlineSend? || e.DrainSend?) && e.outcome.WouldBlock? ==> told.full == Some(true))
  }

  /** The `i`th event is a step of the actor's that could be taken then, and was answered as told; or it
      is one of those asked of others. */
  ghost predicate RightAt(actor: Actor, told: Answers, asked: iset<Event>, es: seq<Event>, i: nat) {
    i < |es| &&
    if Own(actor, es[i]) then AsTold(actor, told, es[i]) && Enabled(After(INITIAL, es[..i]), es[i]) else es[i] in asked
  }

  /** Since `from`, nothing has happened but the actor's steps, answered as told, and others' as asked. */
  ghost predicate Told(actor: Actor, told: Answers, asked: iset<Event>, from: seq<Event>, to: seq<Event>) {
    from <= to && forall i :: |from| <= i < |to| ==> RightAt(actor, told, asked, to, i)
  }

  lemma ToldJoin(actor: Actor, a: Answers, b: Answers, told: Answers, x: iset<Event>, y: iset<Event>, asked: iset<Event>,
                 from: seq<Event>, mid: seq<Event>, to: seq<Event>)
    requires Told(actor, a, x, from, mid) && Told(actor, b, y, mid, to)
    requires Within(a, told) && Within(b, told) && x <= asked && y <= asked
    ensures Told(actor, told, asked, from, to)
  {
    forall i | |from| <= i < |to|
      ensures RightAt(actor, told, asked, to, i)
    {
      if i < |mid| {
        assert to[..i] == mid[..i] && RightAt(actor, a, x, mid, i);
      } else {
        assert RightAt(actor, b, y, to, i);
      }
    }
  }

  /** One step more. */
  lemma ToldStep(actor: Actor, told: Answers, asked: iset<Event>, from: seq<Event>, mid: seq<Event>, e: Event)
    requires Told(actor, told, asked, from, mid) && AsTold(actor, told, e) && Enabled(After(INITIAL, mid), e)
    ensures Told(actor, told, asked, from, mid + [e])
  {
    var to := mid + [e];
    forall i | |from| <= i < |to|
      ensures RightAt(actor, told, asked, to, i)
    {
      assert to[..i] == mid[..i];
      assert i < |mid| ==> RightAt(actor, told, asked, mid, i);
      assert mid[..|mid|] == mid;
    }
  }

  lemma ToldNothing(actor: Actor, told: Answers, asked: iset<Event>, es: seq<Event>)
    ensures Told(actor, told, asked, es, es)
  {
  }

  /** One stretch of interference more. */
  lemma ToldOthers(actor: Actor, told: Answers, asked: iset<Event>, from: seq<Event>, mid: seq<Event>, es: seq<Event>)
    requires Told(actor, told, asked, from, mid) && forall e :: e in es ==> e in asked
    ensures Told(actor, told, asked, from, mid + Others(actor, es))
  {
    var to := mid + Others(actor, es);
    forall i | |from| <= i < |to|
      ensures RightAt(actor, told, asked, to, i)
    {
      if i < |mid| {
        assert to[..i] == mid[..i] && RightAt(actor, told, asked, mid, i);
      } else {
        OthersAreForeign(actor, es, to[i]);
      }
    }
  }

  ghost predicate InEnv(env: nat -> seq<Event>, e: Event) {
    exists n: nat :: e in env(n)
  }

  lemma EnvAt(env: nat -> seq<Event>, n: nat)
    ensures forall e :: e in env(n) ==> e in Envs(env)
  {
  }

  /** Everything others are to do at some point or other. */
  ghost function Envs(env: nat -> seq<Event>): iset<Event> {
    iset e | InEnv(env, e)
  }

  lemma EnvsWithin(part: nat -> seq<Event>, env: nat -> seq<Event>, k: nat)
    requires forall n: nat :: part(n) == env(n + k)
    ensures Envs(part) <= Envs(env)
  {
    forall e | e in Envs(part)
      ensures e in Envs(env)
    {
      var n: nat :| e in part(n);
      assert e in env(n + k);
    }
  }

  /** Nobody else does anything. */
  ghost predicate Silent(env: nat -> seq<Event>) {
    forall n: nat :: env(n) == []
  }

  // ---- Waiting for a slot ----

  /** What others did between polls. */
  function AllOthers(actor: Actor, polls: seq<seq<Event>>): seq<Event>
    decreases |polls|
  {
    if polls == [] then []
    else
      var n := |polls| - 1;
      AllOthers(actor, polls[..n]) + Others(actor, polls[n])
  }

  lemma AllOthersSnoc(actor: Actor, polls: seq<seq<Event>>, i: nat)
    requires i < |polls|
    ensures AllOthers(actor, polls[..i + 1]) == AllOthers(actor, polls[..i]) + Others(actor, polls[i])
  {
    assert polls[..i + 1][..i] == polls[..i];
  }

  /** The installed channel is open and has no slot to reserve. */
  predicate AllTaken(s: State) {
    s.installed.Some? && ReceiverOpen(Main(s)) && !HasRoom(Main(s))
  }

  predicate TakenAfter(es: seq<Event>) {
    AllTaken(After(INITIAL, es))
  }

  /** Since the run `start` the actor has only waited, through all of these polls, and none of them found
      a slot. */
  predicate WaitedThrough(actor: Actor, start: seq<Event>, es: seq<Event>, polls: seq<seq<Event>>) {
    && es == start + AllOthers(actor, polls)
    && forall j :: 0 < j <= |polls| ==> TakenAfter(start + AllOthers(actor, polls[..j]))
  }

  ghost predicate InPolls(polls: seq<seq<Event>>, e: Event) {
    exists i :: 0 <= i < |polls| && e in polls[i]
  }

  /** Everything others are to do between polls. */
  ghost function Polled(polls: seq<seq<Event>>): iset<Event> {
    iset e | InPolls(polls, e)
  }

  // ---- What it is for ----

  /** A call that has been told that an outbox can be built never fails to build one. */
  lemma ToldBuilds(c: CallId, told: Answers, asked: iset<Event>, from: seq<Event>, to: seq<Event>)
    requires Told(Caller(c), told, asked, from, to) && told.builds == Some(true) && c !in After(INITIAL, from).calls
    ensures !BuildFailed(to, c)
  {
    forall i | 0 <= i < |to|
      ensures !BuildFailedAt(to, i, c)
    {
      if i < |from| {
        NotYetBegun(c, from, i);
        assert to[..i] == from[..i];
      } else {
        assert RightAt(Caller(c), told, asked, to, i);
      }
    }
  }

  lemma NotYetBegun(c: CallId, from: seq<Event>, i: nat)
    requires i <= |from| && c !in After(INITIAL, from).calls
    ensures c !in After(INITIAL, from[..i]).calls
  {
    assert from == from[..i] + from[i..];
    AfterConcat(INITIAL, from[..i], from[i..]);
    LaterAfter(After(INITIAL, from[..i]), from[i..]);
  }

  // ---- A call by itself ----

  /** How a message gets on, if nobody else does anything meanwhile. */
  datatype Route = Direct | ByQueue | Refuse(error: SendError)

  /** Straight to the socket if nothing is queued and it has room; otherwise into the queue, if there
      is one or can be one and it has room. */
  function RouteOf(s: State, m: Message, full: bool, builds: bool): Route {
    if !FitsBuffer(m) then Refuse(TooLarge)
    else if GoesDirect(s, m, full) then (if s.peerOpen then Direct else Refuse(Closed))
    else QueueRoute(s, builds)
  }

  function QueueRoute(s: State, builds: bool): Route {
    if (s.installed.None? && !builds) || !ReceiverOpen(Main(s)) then Refuse(Closed)
    else if !HasRoom(Main(s)) then Refuse(Full)
    else ByQueue
  }

  /** An outbox has been got or built: one like the one there was, or a new one. */
  predicate SameOutbox(s: State, t: State) {
    && t == s.(calls := t.calls, boxes := t.boxes, installed := t.installed)
    && Main(t) == Main(s) && (s.installed.Some? ==> t.installed == s.installed)
  }

  /** Is the message going straight to the socket? */
  predicate GoesDirect(s: State, m: Message, full: bool) {
    Sendable(m) && Main(s).pending == 0 && !(s.peerOpen && full && s.read < |s.wire|)
  }

  /** Nothing has changed but calls. */
  predicate Untouched(s: State, t: State) {
    t == s.(calls := t.calls)
  }

  /** What the message leaves behind: one record more on the wire, one message more in the queue and in
      `pending`, or nothing. */
  predicate Left(route: Route, s: State, t: State, p: Parcel) {
    && t.read == s.read && t.peerOpen == s.peerOpen && t.failed == s.failed && t.stranded == s.stranded
    && match route
       case Direct =>
         t.wire == s.wire + [p] && t.accepted == s.accepted + [p] && Main(t) == Main(s) && t.installed == s.installed
       case ByQueue =>
         && t.wire == s.wire && t.accepted == s.accepted + [p]
         && t.installed.Some? && (s.installed.Some? ==> t.installed == s.installed)
         && Main(t) == Main(s).(queue := Main(s).queue + [p], pending := Main(s).pending + 1)
       case Refuse(_) =>
         t.wire == s.wire && t.accepted == s.accepted && Main(t) == Main(s) && t.installed == s.installed
  }

  // ---- The drain's turns ----

  /** What others do during a turn of the drain: before it, at each attempt to send, and after. */
  datatype Plan = Plan(before: seq<Event>, tries: seq<(bool, seq<Event>)>, after: seq<Event>)

  ghost predicate Planned(plan: Plan, e: Event) {
    e in plan.before || e in plan.after || InTries(plan.tries, e)
  }

  ghost function InPlan(plan: Plan): iset<Event> {
    iset e | Planned(plan, e)
  }

  ghost predicate InTries(tries: seq<(bool, seq<Event>)>, e: Event) {
    exists i :: 0 <= i < |tries| && e in tries[i].1
  }

  ghost function Tried(tries: seq<(bool, seq<Event>)>): iset<Event> {
    iset e | InTries(tries, e)
  }

  ghost predicate InPlans(plans: seq<Plan>, e: Event) {
    exists i :: 0 <= i < |plans| && Planned(plans[i], e)
  }

  ghost function InSome(plans: seq<Plan>): iset<Event> {
    iset e | InPlans(plans, e)
  }

  lemma PlanWithin(plans: seq<Plan>, i: nat)
    requires i < |plans|
    ensures InPlan(plans[i]) <= InSome(plans)
  {
  }

  /** The attempt that was not refused for want of room, if there was one. */
  function LastAttempt(o: BoxId, tries: seq<(bool, seq<Event>)>, used: nat, result: Option<bool>): seq<Event> {
    if result.None? || used >= |tries| then []
    else Others(DrainOf(o), tries[used].1) + [DrainSend(o, if result.value then Sent else Broken)]
  }

  /** That many attempts that found the socket full. */
  function Attempts(o: BoxId, tries: seq<(bool, seq<Event>)>): seq<Event>
    decreases |tries|
  {
    if tries == [] then []
    else
      var n := |tries| - 1;
      Attempts(o, tries[..n]) + (Others(DrainOf(o), tries[n].1) + [DrainSend(o, WouldBlock)])
  }

  lemma AttemptsSnoc(o: BoxId, tries: seq<(bool, seq<Event>)>, i: nat)
    requires i < |tries|
    ensures Attempts(o, tries[..i + 1]) == Attempts(o, tries[..i]) + (Others(DrainOf(o), tries[i].1) + [DrainSend(o, WouldBlock)])
  {
    assert tries[..i + 1][..i] == tries[..i];
  }

  /** Since `from` the drain has let others run, taken a message, and found the socket full at each
      attempt of this turn, as planned. */
  predicate Stuck(es: seq<Event>, from: nat, o: BoxId, plan: Plan) {
    && from <= |es| && (forall i :: 0 <= i < |plan.tries| ==> plan.tries[i].0)
    && es[from..] == Others(DrainOf(o), plan.before) + [DrainReceive(o)] + Attempts(o, plan.tries)
  }

  /** One turn of the drain: from `from` others ran as planned; at `at` the queue was empty, or its front
      was taken and by `to` is on the wire at `place`. */
  datatype Turn = Turn(from: nat, at: nat, to: nat, place: Option<nat>)

  ghost predicate TurnTaken(es: seq<Event>, o: BoxId, plan: Plan, t: Turn) {
    && t.from <= t.at <= t.to <= |es| && es[t.from..t.at] == Others(DrainOf(o), plan.before)
    && Told(DrainOf(o), Answers(Some(true), None), InPlan(plan), es[..t.at], es[..t.to])
    && var s := After(INITIAL, es[..t.at]);
    && o in s.boxes && s.boxes[o].drain.Receiving?
    && match t.place
       case None => s.boxes[o].queue == [] && s.boxes[o].attached && t.to == t.at
       case Some(place) =>
         && s.boxes[o].queue != [] && |s.wire| <= place < |After(INITIAL, es[..t.to]).wire|
         && After(INITIAL, es[..t.to]).wire[place] == s.boxes[o].queue[0]
  }

  ghost predicate EachTaken(es: seq<Event>, o: BoxId, plans: seq<Plan>, log: seq<Turn>) {
    |log| <= |plans| && forall i :: 0 <= i < |log| ==> TurnTaken(es, o, plans[i], log[i])
  }

  /** Each turn begins where the one before it ended. */
  predicate Chained(start: nat, log: seq<Turn>) {
    forall i :: 0 <= i < |log| ==> log[i].from == EndOf(start, log, i)
  }

  predicate InWireOrder(log: seq<Turn>) {
    forall i, j :: 0 <= i < j < |log| && log[i].place.Some? && log[j].place.Some?
      ==> log[i].place.value < log[j].place.value
  }

  /** Turns taken one straight after the other, since `start`, and what they sent in wire order. */
  ghost predicate TurnsTaken(es: seq<Event>, o: BoxId, start: nat, plans: seq<Plan>, log: seq<Turn>) {
    EachTaken(es, o, plans, log) && Chained(start, log) && InWireOrder(log)
  }

  /** Where the first `i` turns end. */
  function EndOf(start: nat, log: seq<Turn>, i: nat): nat
    requires i <= |log|
  {
    if i == 0 then start else log[i - 1].to
  }

  lemma TurnKept(earlier: seq<Event>, later: seq<Event>, o: BoxId, plan: Plan, t: Turn)
    requires earlier <= later && TurnTaken(earlier, o, plan, t)
    ensures TurnTaken(later, o, plan, t)
  {
    assert later[..t.at] == earlier[..t.at] && later[..t.to] == earlier[..t.to];
    assert later[t.from..t.at] == earlier[t.from..t.at];
  }

  lemma TurnsKept(earlier: seq<Event>, later: seq<Event>, o: BoxId, plans: seq<Plan>, log: seq<Turn>)
    requires earlier <= later && EachTaken(earlier, o, plans, log)
    ensures EachTaken(later, o, plans, log)
  {
    forall i | 0 <= i < |log|
      ensures TurnTaken(later, o, plans[i], log[i])
    {
      TurnKept(earlier, later, o, plans[i], log[i]);
    }
  }

  /** What an earlier turn sent is on the wire before what a later one takes. */
  lemma SentEarlier(es: seq<Event>, o: BoxId, plan: Plan, t: Turn)
    requires TurnTaken(es, o, plan, t) && t.place.Some?
    ensures t.place.value < |After(INITIAL, es).wire|
  {
    assert es == es[..t.to] + es[t.to..];
    AfterConcat(INITIAL, es[..t.to], es[t.to..]);
    LaterAfter(After(INITIAL, es[..t.to]), es[t.to..]);
  }

  /** What an earlier turn sent is ahead of what the next one sends. */
  lemma PlacesGrow(earlier: seq<Event>, later: seq<Event>, o: BoxId, plan: Plan, next: Plan, t: Turn, u: Turn)
    requires earlier <= later && TurnTaken(earlier, o, plan, t) && TurnTaken(later, o, next, u)
    requires u.from == |earlier| && t.place.Some? && u.place.Some?
    ensures t.place.value < u.place.value
  {
    SentEarlier(earlier, o, plan, t);
    assert later[..u.at][..|earlier|] == earlier;
    LogsKept(earlier, later[..u.at]);
  }

  /** One more turn. */
  lemma TurnAdded(earlier: seq<Event>, later: seq<Event>, o: BoxId, start: nat, plans: seq<Plan>, log: seq<Turn>, t: Turn)
    requires earlier <= later && TurnsTaken(earlier, o, start, plans, log) && |log| < |plans|
    requires EndOf(start, log, |log|) == |earlier| == t.from && TurnTaken(later, o, plans[|log|], t)
    ensures TurnsTaken(later, o, start, plans, log + [t])
  {
    TurnsKept(earlier, later, o, plans, log);
    EachAdded(later, o, plans, log, t);
    ChainAdded(start, log, t);
    OrderAdded(earlier, later, o, plans, log, t);
  }

  lemma EachAdded(es: seq<Event>, o: BoxId, plans: seq<Plan>, log: seq<Turn>, t: Turn)
    requires EachTaken(es, o, plans, log) && |log| < |plans| && TurnTaken(es, o, plans[|log|], t)
    ensures EachTaken(es, o, plans, log + [t])
  {
    forall i | 0 <= i < |log + [t]|
      ensures TurnTaken(es, o, plans[i], (log + [t])[i])
    {
      if i < |log| {
        assert (log + [t])[i] == log[i];
      } else {
        assert (log + [t])[i] == t;
      }
    }
  }

  lemma ChainAdded(start: nat, log: seq<Turn>, t: Turn)
    requires Chained(start, log) && EndOf(start, log, |log|) == t.from
    ensures Chained(start, log + [t])
  {
    forall i | 0 <= i < |log + [t]|
      ensures (log + [t])[i].from == EndOf(start, log + [t], i)
    {
      assert EndOf(start, log + [t], i) == EndOf(start, log, i);
    }
  }

  lemma OrderAdded(earlier: seq<Event>, later: seq<Event>, o: BoxId, plans: seq<Plan>, log: seq<Turn>, t: Turn)
    requires earlier <= later && EachTaken(earlier, o, plans, log) && InWireOrder(log) && |log| < |plans|
    requires t.from == |earlier| && TurnTaken(later, o, plans[|log|], t)
    ensures InWireOrder(log + [t])
  {
    forall i | 0 <= i < |log| && log[i].place.Some? && t.place.Some?
      ensures log[i].place.value < t.place.value
    {
      PlacesGrow(earlier, later, o, plans[i], plans[|log|], log[i], t);
    }
  }

  /** What is on the wire or has failed stays so as the schedule goes on. */
  lemma LogsKept(earlier: seq<Event>, later: seq<Event>)
    requires earlier <= later
    ensures After(INITIAL, earlier).wire <= After(INITIAL, later).wire
    ensures After(INITIAL, earlier).failed <= After(INITIAL, later).failed
  {
    assert later == earlier + later[|earlier|..];
    AfterConcat(INITIAL, earlier, later[|earlier|..]);
    LaterAfter(After(INITIAL, earlier), later[|earlier|..]);
  }
}
