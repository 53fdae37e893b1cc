/** The death latch: one flag, one wakeup, any number of waiters.

    `wait` registers with the notifier and then checks the flag; `declare` stores the flag and then
    notifies. Both orders are parameters here, so that what depends on them can be said exactly. */
module Death {

  type WaiterId = nat

  datatype Order = Order(registerFirst: bool, storeFirst: bool)

  /** The order the code uses. */
  const SOURCE := Order(true, true)

  datatype Progress = Started | Halfway | Parked | Returned

  datatype Waiter = Waiter(progress: Progress, registered: bool, woken: bool)

  datatype Phase = NotYet | Between | Complete

  datatype State = State(dead: bool, phase: Phase, waiters: map<WaiterId, Waiter>)

  const INITIAL := State(false, NotYet, map[])

  datatype Event =
    | Arrive(waiter: WaiterId)
    | First(waiter: WaiterId)     // the first of register and check
    | Second(waiter: WaiterId)    // the other
    | Resume(waiter: WaiterId)
    | DeclareFirst                // the first of store and notify
    | DeclareSecond               // the other

  predicate Enabled(s: State, e: Event) {
    match e
    case Arrive(w) => w !in s.waiters
    case First(w) => w in s.waiters && s.waiters[w].progress.Started?
    case Second(w) => w in s.waiters && s.waiters[w].progress.Halfway?
    case Resume(w) => w in s.waiters && s.waiters[w].progress.Parked? && s.waiters[w].woken
    case DeclareFirst => s.phase.NotYet?
    case DeclareSecond => s.phase.Between?
  }

  function Put(s: State, w: WaiterId, waiter: Waiter): State {
    s.(waiters := s.waiters[w := waiter])
  }

  function Register(s: State, w: WaiterId, next: Progress): State
    requires w in s.waiters
  {
    Put(s, w, s.waiters[w].(registered := true, progress := next))
  }

  /** Returns if the flag is set, and goes on otherwise. */
  function Check(s: State, w: WaiterId, next: Progress): State
    requires w in s.waiters
  {
    Put(s, w, s.waiters[w].(progress := if s.dead then Returned else next))
  }

  /** `notify_waiters` wakes everyone registered by now, and nobody else. */
  function Notify(s: State): State {
    s.(waiters := map w | w in s.waiters :: s.waiters[w].(woken := s.waiters[w].woken || s.waiters[w].registered))
  }

  function Store(s: State): State {
    s.(dead := true)
  }

  function Step(order: Order, s: State, e: Event): State {
    if !Enabled(s, e) then s
    else
      match e
      case Arrive(w) => Put(s, w, Waiter(Started, false, false))
      case First(w) => if order.registerFirst then Register(s, w, Halfway) else Check(s, w, Halfway)
      case Second(w) => if order.registerFirst then Check(s, w, Parked) else Register(s, w, Parked)
      case Resume(w) => Put(s, w, s.waiters[w].(progress := Returned))
      case DeclareFirst => (if order.storeFirst then Store(s) else Notify(s)).(phase := Between)
      case DeclareSecond => (if order.storeFirst then Notify(s) else Store(s)).(phase := Complete)
  }

  function After(order: Order, s: State, es: seq<Event>): State
    decreases |es|
  {
    if es == [] then s else After(order, Step(order, s, es[0]), es[1..])
  }

  lemma {:induction false} AfterSnoc(order: Order, s: State, es: seq<Event>, e: Event)
    ensures After(order, s, es + [e]) == Step(order, After(order, s, es), e)
    decreases |es|
  {
    if es == [] {
      assert [] + [e] == [e] && [e][1..] == [];
      assert After(order, Step(order, s, e), []) == Step(order, s, e);
    } else {
      assert (es + [e])[1..] == es[1..] + [e];
      AfterSnoc(order, Step(order, s, es[0]), es[1..], e);
    }
  }

  /** A waiter left parked although the death has been declared in full. */
  predicate Stranded(s: State, w: WaiterId) {
    s.phase.Complete? && w in s.waiters && s.waiters[w].progress.Parked? && !s.waiters[w].woken
  }

  /** A waiter that returned although nothing has died. */
  predicate Premature(s: State, w: WaiterId) {
    w in s.waiters && s.waiters[w].progress.Returned? && !s.dead
  }

  predicate Inv(s: State) {
    && (s.dead <==> !s.phase.NotYet?)
    && (forall w :: w in s.waiters ==>
          && (s.waiters[w].progress.Halfway? || s.waiters[w].progress.Parked? ==> s.waiters[w].registered)
          && (s.waiters[w].progress.Returned? || s.waiters[w].woken ==> s.dead)
          && (s.waiters[w].progress.Parked? && s.phase.Complete? ==> s.waiters[w].woken))
  }

  lemma {:induction false} InvAfter(s: State, es: seq<Event>)
    requires Inv(s)
    ensures Inv(After(SOURCE, s, es))
    decreases |es|
  {
    if es != [] {
      InvAfter(Step(SOURCE, s, es[0]), es[1..]);
    }
  }

  /** With the code's order no schedule strands a waiter, and none returns before the flag is set. */
  lemma NoLostWakeup(es: seq<Event>, w: WaiterId)
    ensures !Stranded(After(SOURCE, INITIAL, es), w) && !Premature(After(SOURCE, INITIAL, es), w)
  {
    InvAfter(INITIAL, es);
  }

  /** Checking before registering loses a death declared in between. */
  lemma CheckFirstStrands(order: Order)
    requires !order.registerFirst
    ensures Stranded(After(order, INITIAL, [Arrive(0), First(0), DeclareFirst, DeclareSecond, Second(0)]), 0)
  {
  }

  /** Notifying before storing loses a waiter that registers and checks in between. */
  lemma NotifyFirstStrands(order: Order)
    requires order.registerFirst && !order.storeFirst
    ensures Stranded(After(order, INITIAL, [Arrive(0), DeclareFirst, First(0), Second(0), DeclareSecond]), 0)
  {
  }

  /** This schedule, with this order, leaves the waiter parked for good. */
  predicate LosesWakeup(order: Order, es: seq<Event>, w: WaiterId) {
    Stranded(After(order, INITIAL, es), w)
  }

  lemma OtherOrderStrands(order: Order) returns (es: seq<Event>, w: WaiterId)
    requires order != SOURCE
    ensures LosesWakeup(order, es, w)
  {
    w := 0;
    if !order.registerFirst {
      CheckFirstStrands(order);
      es := [Arrive(0), First(0), DeclareFirst, DeclareSecond, Second(0)];
    } else {
      NotifyFirstStrands(order);
      es := [Arrive(0), DeclareFirst, First(0), Second(0), DeclareSecond];
    }
  }

  /** Both orders are needed: no waiter is ever stranded exactly when registration precedes the
      check and the store precedes the notification. */
  lemma WakeupExactly(order: Order)
    ensures (forall es, w :: !LosesWakeup(order, es, w)) <==> order == SOURCE
  {
    if order == SOURCE {
      forall es, w
        ensures !LosesWakeup(order, es, w)
      {
        NoLostWakeup(es, w);
      }
    } else {
      var es, w := OtherOrderStrands(order);
    }
  }

  /** How many steps of its own a waiter has left. */
  function Left(p: Progress): nat {
    match p
    case Started => 3
    case Halfway => 2
    case Parked => 1
    case Returned => 0
  }

  function NextEvent(s: State, w: WaiterId): Event
    requires w in s.waiters
  {
    match s.waiters[w].progress
    case Started => First(w)
    case Halfway => Second(w)
    case _ => Resume(w)
  }

  /** Once the death is declared in full, every waiter that has not returned can take a step, and
      is closer to returning after it. */
  lemma WaitersReturn(es: seq<Event>, w: WaiterId)
    requires var s := After(SOURCE, INITIAL, es); s.phase.Complete? && w in s.waiters && !s.waiters[w].progress.Returned?
    ensures var s := After(SOURCE, INITIAL, es); var t := Step(SOURCE, s, NextEvent(s, w));
      && Enabled(s, NextEvent(s, w))
      && w in t.waiters && Left(t.waiters[w].progress) < Left(s.waiters[w].progress)
  {
    InvAfter(INITIAL, es);
  }

  /** Dead is for ever. */
  lemma {:induction false} DeadStays(order: Order, s: State, es: seq<Event>)
    requires s.dead
    ensures After(order, s, es).dead
    decreases |es|
  {
    if es != [] {
      DeadStays(order, Step(order, s, es[0]), es[1..]);
    }
  }

  // ---- The schedules the code leaves behind ----

  predicate Own(w: WaiterId, e: Event) {
    !e.DeclareFirst? && !e.DeclareSecond? && e.waiter == w
  }

  /** The steps among these that are not waiter `w`'s. */
  function Others(w: WaiterId, es: seq<Event>): seq<Event>
    decreases |es|
  {
    if es == [] then []
    else
      var n := |es| - 1;
      Others(w, es[..n]) + (if Own(w, es[n]) then [] else [es[n]])
  }

  function AllOthers(w: WaiterId, polls: seq<seq<Event>>): seq<Event>
    decreases |polls|
  {
    if polls == [] then []
    else
      var n := |polls| - 1;
      AllOthers(w, polls[..n]) + Others(w, polls[n])
  }

  predicate WokenAfter(es: seq<Event>, w: WaiterId) {
    var s := After(SOURCE, INITIAL, es);
    w in s.waiters && s.waiters[w].woken
  }

  /** Parked since the run `start` through this many polls, the others running before each; nobody had woken the
      waiter by any of them but the last, and by that one exactly if the wait is over. */
  predicate Polled(start: seq<Event>, w: WaiterId, polls: seq<seq<Event>>, used: nat, resolved: bool, es: seq<Event>) {
    && used <= |polls| && (resolved ==> used > 0) && (!resolved ==> used == |polls|)
    && es == start + AllOthers(w, polls[..used]) + (if resolved then [Resume(w)] else [])
    && (forall j :: 0 < j <= used ==>
          (WokenAfter(start + AllOthers(w, polls[..j]), w) <==> resolved && j == used))
  }

  /** One poll more that found nothing. */
  lemma PolledOn(start: seq<Event>, w: WaiterId, polls: seq<seq<Event>>, i: nat)
    requires i < |polls| && Polled(start, w, polls[..i], i, false, start + AllOthers(w, polls[..i]))
    requires !WokenAfter(start + AllOthers(w, polls[..i + 1]), w)
    ensures Polled(start, w, polls[..i + 1], i + 1, false, start + AllOthers(w, polls[..i + 1]))
  {
    PrefixOfPrefix(polls, i);
    var more := polls[..i + 1];
    forall j | 0 < j <= i + 1
      ensures !WokenAfter(start + AllOthers(w, more[..j]), w)
    {
      assert more[..j] == polls[..j];
      if j <= i {
        assert polls[..i][..j] == polls[..j];
      }
    }
    assert more[..i + 1] == more;
  }

  lemma PolledLast(start: seq<Event>, w: WaiterId, polls: seq<seq<Event>>, i: nat)
    requires i < |polls| && Polled(start, w, polls[..i], i, false, start + AllOthers(w, polls[..i]))
    requires WokenAfter(start + AllOthers(w, polls[..i + 1]), w)
    ensures Polled(start, w, polls, i + 1, true, start + AllOthers(w, polls[..i + 1]) + [Resume(w)])
  {
    forall j | 0 < j <= i
      ensures !WokenAfter(start + AllOthers(w, polls[..j]), w)
    {
      assert polls[..i][..j] == polls[..j];
    }
  }

  lemma PrefixOfPrefix(polls: seq<seq<Event>>, i: nat)
    requires i < |polls|
    ensures polls[..i + 1][..i] == polls[..i]
  {
  }

  lemma OthersSnoc(w: WaiterId, es: seq<Event>, i: nat)
    requires i < |es|
    ensures Others(w, es[..i + 1]) == Others(w, es[..i]) + (if Own(w, es[i]) then [] else [es[i]])
  {
    assert es[..i + 1][..i] == es[..i];
  }

  /** The latch as the code has it, with interference between its atomic actions. */
  class Latch {
    var dead: bool
    var waiters: map<WaiterId, Waiter>
    var phase: Phase
    ghost var trace: seq<Event>

    function Abs(): State
      reads this
    {
      State(dead, phase, waiters)
    }

    ghost predicate Valid()
      reads this
    {
      Abs() == After(SOURCE, INITIAL, trace)
    }

    constructor ()
      ensures Valid() && Abs() == INITIAL && trace == []
    {
      dead, waiters, phase, trace := false, map[], NotYet, [];
    }

    ghost method Record(e: Event, before: State)
      requires before == After(SOURCE, INITIAL, trace) && Enabled(before, e) && Abs() == Step(SOURCE, before, e)
      modifies this`trace
      ensures Valid() && trace == old(trace) + [e]
    {
      AfterSnoc(SOURCE, INITIAL, trace, e);
      trace := trace + [e];
    }

    /** What everyone but waiter `w` is asked to do, and nothing else. */
    method Interfere(w: WaiterId, others: seq<Event>)
      requires Valid()
      modifies this
      ensures Valid() && trace == old(trace) + Others(w, others) && (old(dead) ==> dead)
      ensures w in old(waiters) ==> w in waiters
      ensures w in old(waiters) ==> waiters[w] == old(waiters)[w].(woken := waiters[w].woken)
      ensures w in old(waiters) && old(waiters)[w].woken ==> waiters[w].woken
    {
      ghost var mine := waiters;
      for i := 0 to |others|
        invariant Valid() && trace == old(trace) + Others(w, others[..i]) && (old(dead) ==> dead)
        invariant w in mine ==> w in waiters && waiters[w] == mine[w].(woken := waiters[w].woken)
        invariant w in mine && mine[w].woken ==> waiters[w].woken
      {
        OthersSnoc(w, others, i);
        if !Own(w, others[i]) {
          Other(others[i]);
        }
      }
      assert others[..|others|] == others;
    }

    /** Another's step, if it can be taken. */
    method Other(e: Event)
      requires Valid()
      modifies this
      ensures Valid() && trace == old(trace) + [e] && Abs() == Step(SOURCE, old(Abs()), e)
    {
      AfterSnoc(SOURCE, INITIAL, trace, e);
      var s := Step(SOURCE, Abs(), e);
      dead, waiters, phase := s.dead, s.waiters, s.phase;
      trace := trace + [e];
    }

    method Put(w: WaiterId, waiter: Waiter)
      modifies this`waiters
      ensures waiters == old(waiters)[w := waiter]
    {
      waiters := waiters[w := waiter];
    }

    /** `notified.enable()`, some time after the call. */
    method Enlist(w: WaiterId, others: seq<Event>)
      requires Valid() && w !in waiters
      modifies this
      ensures Valid() && trace == old(trace) + [Arrive(w)] + Others(w, others) + [First(w)]
      ensures w in waiters && waiters[w].registered && waiters[w].progress.Halfway?
    {
      ghost var before := Abs();
      Put(w, Waiter(Started, false, false));
      Record(Arrive(w), before);
      Interfere(w, others);
      before := Abs();
      Put(w, waiters[w].(registered := true, progress := Halfway));
      Record(First(w), before);
    }

    /** `wait`: register, check, and park until notified. It resolves at the check exactly if the death had been
        declared by then, and otherwise at the first poll that finds the waiter woken; `resolved` is false while the
        future is still pending when the schedule runs out. */
    method Wait(w: WaiterId, env: nat -> seq<Event>, polls: seq<seq<Event>>)
      returns (resolved: bool, ghost checked: seq<Event>, ghost used: nat)
      requires Valid() && w !in waiters
      modifies this
      ensures Valid() && checked == old(trace) + [Arrive(w)] + Others(w, env(0)) + [First(w)] + Others(w, env(1)) + [Second(w)]
      ensures if After(SOURCE, INITIAL, checked).dead then resolved && trace == checked
              else Polled(checked, w, polls, used, resolved, trace)
      ensures resolved ==> dead
      ensures !resolved ==> w in waiters && waiters[w].progress.Parked?
      ensures !resolved && phase.Complete? ==> waiters[w].woken
      ensures !resolved && polls != [] ==> !waiters[w].woken && !phase.Complete?
    {
      Enlist(w, env(0));
      Interfere(w, env(1));
      ghost var before := Abs();
      var gone := dead;
      Put(w, waiters[w].(progress := if gone then Returned else Parked));
      Record(Second(w), before);
      checked, used := trace, 0;
      if gone {
        resolved := true;
        return;
      }
      resolved, used := AwaitNotified(w, polls);
    }

    /** `notified.await`. */
    method AwaitNotified(w: WaiterId, polls: seq<seq<Event>>) returns (resolved: bool, ghost used: nat)
      requires Valid() && w in waiters && waiters[w].progress.Parked?
      modifies this
      ensures Valid() && Polled(old(trace), w, polls, used, resolved, trace)
      ensures resolved ==> dead
      ensures !resolved ==> w in waiters && waiters[w].progress.Parked?
      ensures !resolved && phase.Complete? ==> waiters[w].woken
      ensures !resolved && polls != [] ==> !waiters[w].woken && !phase.Complete?
    {
      for i := 0 to |polls|
        invariant i > 0 ==> w in waiters && !waiters[w].woken
        invariant Valid() && w in waiters && waiters[w].progress.Parked?
        invariant trace == old(trace) + AllOthers(w, polls[..i]) && Polled(old(trace), w, polls[..i], i, false, trace)
      {
        PrefixOfPrefix(polls, i);
        Interfere(w, polls[i]);
        assert trace == old(trace) + AllOthers(w, polls[..i + 1]);
        InvAfter(INITIAL, trace);
        if waiters[w].woken {
          PolledLast(old(trace), w, polls, i);
          ghost var before := Abs();
          Put(w, waiters[w].(progress := Returned));
          Record(Resume(w), before);
          return true, i + 1;
        }
        PolledOn(old(trace), w, polls, i);
      }
      assert polls[..|polls|] == polls;
      InvAfter(INITIAL, trace);
      return false, |polls|;
    }

    /** `declare`: store, then notify. */
    method Declare(others: seq<Event>)
      requires Valid() && phase.NotYet?
      requires forall i :: 0 <= i < |others| ==> !others[i].DeclareFirst? && !others[i].DeclareSecond?
      modifies this
      ensures Valid() && trace == old(trace) + [DeclareFirst] + others + [DeclareSecond] && dead && phase.Complete?
      ensures forall w :: w in waiters && waiters[w].progress.Parked? ==> waiters[w].woken
    {
      ghost var before := Abs();
      dead, phase := true, Between;
      Record(DeclareFirst, before);
      for i := 0 to |others|
        invariant Valid() && trace == old(trace) + [DeclareFirst] + others[..i] && dead && phase.Between?
      {
        Other(others[i]);
      }
      assert others[..|others|] == others;
      before := Abs();
      waiters := map w | w in waiters :: waiters[w].(woken := waiters[w].woken || waiters[w].registered);
      phase := Complete;
      Record(DeclareSecond, before);
      InvAfter(INITIAL, trace);
    }
  }
}
