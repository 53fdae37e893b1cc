/** The schedules a node's task leaves behind: turn by turn, what it found, what it did about it, and
    what others were asked to do meanwhile. */
module NodeTrace {
  import opened Wire
  import opened Nodes
  import opened NodeInvariant
  import opened NodeLifetime
  import ReceiveLoop

  /** What a turn of the loop meets: nothing special, an I/O error, a handler that panics, or the
      cancellation an abort asked for. */
  datatype Luck = Fine | Fails | Panics | Cancelled

  /** What others leave alone in a node: all but its handle and what is delivered to it. */
  predicate Undisturbed(a: Node, b: Node) {
    && b == a.(handle := b.handle, delivered := b.delivered)
    && a.delivered <= b.delivered
    && (!a.handle.Kept? ==> b.handle == a.handle)
  }

  lemma ForeignStep(s: State, e: Event, n: NodeId)
    requires n in s.nodes && !TaskStep(e, n)
    ensures n in Step(s, e).nodes && Undisturbed(s.nodes[n], Step(s, e).nodes[n])
  {
    if Enabled(s, e) && !e.Capability? && !e.Create? {
      AppliesMoved(s, e);
    }
  }

  /** The steps among these that are not those of node `n`'s task. */
  function Others(n: NodeId, es: seq<Event>): seq<Event>
    decreases |es|
  {
    if es == [] then []
    else
      var last := |es| - 1;
      Others(n, es[..last]) + (if TaskStep(es[last], n) then [] else [es[last]])
  }

  lemma OthersSnoc(n: NodeId, es: seq<Event>, i: nat)
    requires i < |es|
    ensures Others(n, es[..i + 1]) == Others(n, es[..i]) + (if TaskStep(es[i], n) then [] else [es[i]])
  {
    assert es[..i + 1][..i] == es[..i];
  }

  /** How many of the records taken the handler was called about, or would have been had they
      fitted: all but an empty one that ended the loop. */
  function Seen(node: Node): nat {
    if node.ending == Some(EmptyRecord) && node.taken > 0 then node.taken - 1 else node.taken
  }

  /** The calls made so far are the records taken, in order, less those too large. */
  predicate Served(node: Node, handled: seq<Message>) {
    node.taken <= |node.delivered| && handled == ReceiveLoop.Fitting(node.delivered[..Seen(node)])
  }

  lemma ServedSame(a: Node, b: Node, handled: seq<Message>)
    requires Served(a, handled) && Undisturbed(a, b)
    ensures Served(b, handled)
  {
    assert b.delivered[..Seen(b)] == a.delivered[..Seen(a)];
  }

  lemma ServedMore(a: Node, b: Node, handled: seq<Message>, call: seq<Message>)
    requires Served(a, handled) && a.ending.None? && HasRecord(a)
    requires b.delivered == a.delivered && b.taken == a.taken + 1 && b.ending != Some(EmptyRecord)
    requires call == ReceiveLoop.Fitting([a.delivered[a.taken]])
    ensures Served(b, handled + call)
  {
    assert b.delivered[..Seen(b)] == a.delivered[..Seen(a)] + [a.delivered[a.taken]];
    ReceiveLoop.FittingConcat(a.delivered[..Seen(a)], [a.delivered[a.taken]]);
  }

  // ---- One turn ----

  /** A record of any bytes that fits the buffer is handed over, one too large is not, and either way it is
      taken; an empty one ends the loop, as does an error, a handler that panics, an abort once asked for,
      and finding no record when nobody can send one any more. Otherwise nothing happens. */
  predicate TurnOutcome(a: Node, reachable: bool, luck: Luck, call: seq<Message>, b: Node) {
    if luck.Cancelled? && a.handle.Dropped? then call == [] && b == a.(ending := Some(Abort))
    else if luck.Fails? then call == [] && b == a.(ending := Some(Fault))
    else if |a.delivered| <= a.taken then call == [] && b == if reachable then a else a.(ending := Some(Hangup))
    else
      var m := a.delivered[a.taken];
      if |m.data| == 0 then call == [] && b == a.(taken := a.taken + 1, ending := Some(EmptyRecord))
      else if |m.data| > MAX_MESSAGE_SIZE then call == [] && b == a.(taken := a.taken + 1)
      else call == [m] && b == a.(taken := a.taken + 1, ending := if luck.Panics? then Some(Panic) else None)
  }

  /** And these are its steps. */
  function TurnSteps(n: NodeId, a: Node, b: Node): seq<Event> {
    (if a.taken < b.taken && b.ending != Some(EmptyRecord) then [Take(n)] else [])
    + (if b.ending.Some? then [End(n, b.ending.value)] else [])
  }

  /** One turn of the loop: from `from` others ran, and at `at` the task went round once, with this call to the
      handler. */
  datatype Round = Round(from: nat, at: nat, to: nat, call: seq<Message>)

  predicate RoundTaken(es: seq<Event>, n: NodeId, luck: Luck, others: seq<Event>, r: Round) {
    && r.from <= r.at <= r.to <= |es| && es[r.from..r.at] == Others(n, others)
    && var s := After(INITIAL, es[..r.at]); var t := After(INITIAL, es[..r.to]);
    && n in s.nodes && Running(s.nodes[n]) && n in t.nodes
    && TurnOutcome(s.nodes[n], Reachable(s, n), luck, r.call, t.nodes[n])
    && es[r.at..r.to] == TurnSteps(n, s.nodes[n], t.nodes[n])
  }

  /** Where the first `i` turns end. */
  function EndOf(start: nat, log: seq<Round>, i: nat): nat
    requires i <= |log|
  {
    if i == 0 then start else log[i - 1].to
  }

  predicate EachTaken(es: seq<Event>, n: NodeId, polls: seq<Luck>, env: nat -> seq<Event>, log: seq<Round>) {
    |log| <= |polls| && forall i :: 0 <= i < |log| ==> RoundTaken(es, n, polls[i], env(i), log[i])
  }

  predicate Chained(start: nat, log: seq<Round>) {
    forall i :: 0 <= i < |log| ==> log[i].from == EndOf(start, log, i)
  }

  /** The calls made, turn after turn. */
  function Calls(log: seq<Round>): seq<Message>
    decreases |log|
  {
    if log == [] then [] else Calls(log[..|log| - 1]) + log[|log| - 1].call
  }

  /** Turns taken one straight after the other since `start`. */
  predicate RoundsTaken(es: seq<Event>, n: NodeId, start: nat, polls: seq<Luck>, env: nat -> seq<Event>, log: seq<Round>) {
    EachTaken(es, n, polls, env, log) && Chained(start, log)
  }

  lemma RoundKept(earlier: seq<Event>, later: seq<Event>, n: NodeId, luck: Luck, others: seq<Event>, r: Round)
    requires earlier <= later && RoundTaken(earlier, n, luck, others, r)
    ensures RoundTaken(later, n, luck, others, r)
  {
    assert later[..r.at] == earlier[..r.at] && later[..r.to] == earlier[..r.to];
    assert later[r.from..r.at] == earlier[r.from..r.at] && later[r.at..r.to] == earlier[r.at..r.to];
  }

  lemma RoundsKept(earlier: seq<Event>, later: seq<Event>, n: NodeId, polls: seq<Luck>, env: nat -> seq<Event>, log: seq<Round>)
    requires earlier <= later && EachTaken(earlier, n, polls, env, log)
    ensures EachTaken(later, n, polls, env, log)
  {
    forall i | 0 <= i < |log|
      ensures RoundTaken(later, n, polls[i], env(i), log[i])
    {
      RoundKept(earlier, later, n, polls[i], env(i), log[i]);
    }
  }

  lemma EachAdded(es: seq<Event>, n: NodeId, polls: seq<Luck>, env: nat -> seq<Event>, log: seq<Round>, r: Round)
    requires EachTaken(es, n, polls, env, log) && |log| < |polls|
    requires RoundTaken(es, n, polls[|log|], env(|log|), r)
    ensures EachTaken(es, n, polls, env, log + [r])
  {
    forall i | 0 <= i < |log + [r]|
      ensures RoundTaken(es, n, polls[i], env(i), (log + [r])[i])
    {
      if i < |log| {
        assert (log + [r])[i] == log[i];
      } else {
        assert (log + [r])[i] == r;
      }
    }
  }

  lemma ChainAdded(start: nat, log: seq<Round>, r: Round)
    requires Chained(start, log) && EndOf(start, log, |log|) == r.from
    ensures Chained(start, log + [r])
  {
    forall i | 0 <= i < |log + [r]|
      ensures (log + [r])[i].from == EndOf(start, log + [r], i)
    {
      assert EndOf(start, log + [r], i) == EndOf(start, log, i);
    }
  }

  /** One more turn. */
  lemma RoundAdded(earlier: seq<Event>, later: seq<Event>, n: NodeId, start: nat, polls: seq<Luck>,
                   env: nat -> seq<Event>, log: seq<Round>, r: Round)
    requires earlier <= later && RoundsTaken(earlier, n, start, polls, env, log) && |log| < |polls|
    requires EndOf(start, log, |log|) == r.from && RoundTaken(later, n, polls[|log|], env(|log|), r)
    ensures RoundsTaken(later, n, start, polls, env, log + [r]) && Calls(log + [r]) == Calls(log) + r.call
  {
    RoundsKept(earlier, later, n, polls, env, log);
    EachAdded(later, n, polls, env, log, r);
    ChainAdded(start, log, r);
    assert (log + [r])[..|log|] == log;
  }

  lemma RoundMade(start: seq<Event>, at: seq<Event>, es: seq<Event>, n: NodeId, luck: Luck, others: seq<Event>, call: seq<Message>)
    requires at == start + Others(n, others)
    requires n in After(INITIAL, at).nodes && Running(After(INITIAL, at).nodes[n]) && n in After(INITIAL, es).nodes
    requires var s := After(INITIAL, at); var t := After(INITIAL, es);
      && TurnOutcome(s.nodes[n], Reachable(s, n), luck, call, t.nodes[n])
      && es == at + TurnSteps(n, s.nodes[n], t.nodes[n])
    ensures RoundTaken(es, n, luck, others, Round(|start|, |at|, |es|, call))
  {
    assert es[..|at|] == at && es[..|es|] == es && es[|start|..|at|] == Others(n, others);
  }

  // ---- Letting go ----

  function LetsGo(n: NodeId, guard: Guard): Event {
    match guard
    case Socket => CloseSocket(n)
    case Entry => Unfile(n)
    case Tombstone => Declare(n)
  }

  function Without(node: Node, guard: Guard): Node {
    match guard
    case Socket => node.(receiving := false)
    case Entry => node.(filed := false)
    case Tombstone => node.(dead := true)
  }

  /** Others run, and then this guard is dropped, if it is still held. */
  function Dropping(n: NodeId, node: Node, guard: Guard, others: seq<Event>): seq<Event> {
    Others(n, others) + (if guard in Frame(node) then [LetsGo(n, guard)] else [])
  }

  /** All of these, one after the other. */
  function DroppingAll(n: NodeId, node: Node, order: seq<Guard>, env: nat -> seq<Event>): seq<Event>
    decreases |order|
  {
    if order == [] then []
    else
      var i := |order| - 1;
      DroppingAll(n, node, order[..i], env) + Dropping(n, WithoutAll(node, order[..i]), order[i], env(i))
  }

  function WithoutAll(node: Node, gone: seq<Guard>): Node
    decreases |gone|
  {
    if gone == [] then node else Without(WithoutAll(node, gone[..|gone| - 1]), gone[|gone| - 1])
  }

  lemma DroppingSnoc(n: NodeId, node: Node, order: seq<Guard>, env: nat -> seq<Event>, i: nat, before: Node, now: Node)
    requires i < |order| && Undisturbed(WithoutAll(node, order[..i]), before)
    requires Undisturbed(Without(before, order[i]), now)
    ensures Undisturbed(WithoutAll(node, order[..i + 1]), now)
    ensures DroppingAll(n, node, order[..i + 1], env)
         == DroppingAll(n, node, order[..i], env) + Dropping(n, before, order[i], env(i))
  {
    assert order[..i + 1][..i] == order[..i];
    FrameSame(WithoutAll(node, order[..i]), before, order[i]);
    StillUndisturbed(WithoutAll(node, order[..i]), before, now, order[i]);
  }

  lemma Joined(a: seq<Event>, b: seq<Event>, c: seq<Event>)
    ensures (a + b) + c == a + (b + c)
  {
  }

  /** What others do to a node leaves its frame as it is. */
  lemma FrameSame(a: Node, b: Node, guard: Guard)
    requires Undisturbed(a, b)
    ensures Frame(b) == Frame(a) && Undisturbed(Without(a, guard), Without(b, guard))
  {
  }

  ghost predicate Silent(env: nat -> seq<Event>) {
    forall n: nat :: env(n) == []
  }

  predicate AllFine(polls: seq<Luck>) {
    forall i :: 0 <= i < |polls| ==> polls[i].Fine?
  }

  /** The reason is the one the last turn met; a panic is over a record the handler was called with. */
  predicate EndsFor(reason: Reason, luck: Luck, call: seq<Message>) {
    match reason
    case Abort => luck.Cancelled?
    case Fault => luck.Fails?
    case Panic => luck.Panics? && |call| == 1
    case _ => true
  }

  lemma ServedTurn(a: Node, reachable: bool, luck: Luck, call: seq<Message>, b: Node, handled: seq<Message>)
    requires Served(a, handled) && a.ending.None? && TurnOutcome(a, reachable, luck, call, b)
    ensures Served(b, handled + call)
    ensures b.ending.Some? ==> EndsFor(b.ending.value, luck, call)
  {
    assert handled + [] == handled;
    if HasRecord(a) && b.taken > a.taken && b.ending != Some(EmptyRecord) {
      assert call == ReceiveLoop.Fitting([a.delivered[a.taken]]);
      ServedMore(a, b, handled, call);
    }
  }

  /** Why a task can be over after these turns, the last of which was its last. */
  predicate EndedBy(node: Node, polls: seq<Luck>, log: seq<Round>) {
    && 0 < |log| <= |polls|
    && node.ending.Some? && EndsFor(node.ending.value, polls[|log| - 1], log[|log| - 1].call)
    && match node.ending.value
       case Abort => node.handle.Dropped?
       case EmptyRecord => 0 < node.taken <= |node.delivered| && node.delivered[node.taken - 1].data == []
       case Hangup => node.taken == |node.delivered|
       case _ => true
  }

  lemma WhyEnded(es: seq<Event>, n: NodeId, polls: seq<Luck>, log: seq<Round>)
    requires n in After(INITIAL, es).nodes && 0 < |log| <= |polls|
    requires var node := After(INITIAL, es).nodes[n];
      node.ending.Some? && EndsFor(node.ending.value, polls[|log| - 1], log[|log| - 1].call)
    ensures EndedBy(After(INITIAL, es).nodes[n], polls, log)
  {
    Always(es);
    assert NodeOk(After(INITIAL, es), n);
  }

  predicate NoneEmpty(ms: seq<Message>) {
    forall i :: 0 <= i < |ms| ==> ms[i].data != []
  }

  function Least(a: nat, b: nat): nat {
    if a < b then a else b
  }

  /** The node after that many turns with nobody else about and nothing special met. */
  function AfterFine(node: Node, turns: nat): Node {
    node.(taken := Least(turns, |node.delivered|))
  }

  /** Where that many such turns leave it: still running, or over for want of senders. */
  function FineNode(node: Node, reachable: bool, turns: nat): Node {
    if |node.delivered| < turns && !reachable then AfterFine(node, turns).(ending := Some(Hangup)) else AfterFine(node, turns)
  }

  /** One more such turn. */
  lemma FineTurn(node: Node, turns: nat, reachable: bool, call: seq<Message>, b: Node)
    requires node.ending.None? && node.taken == 0 && NoneEmpty(node.delivered)
    requires FineNode(node, reachable, turns).ending.None?
    requires TurnOutcome(FineNode(node, reachable, turns), reachable, Fine, call, b)
    ensures b == FineNode(node, reachable, turns + 1)
    ensures call == if turns < |node.delivered| then ReceiveLoop.Fitting([node.delivered[turns]]) else []
  {
  }

  /** A turn leaves everything but its node alone. */
  lemma TurnKeeps(s: State, n: NodeId, a: Node, b: Node)
    ensures After(s, TurnSteps(n, a, b)).caps == s.caps
    ensures n in s.nodes ==> n in After(s, TurnSteps(n, a, b)).nodes && After(s, TurnSteps(n, a, b)).nodes[n].sock == s.nodes[n].sock
  {
    var take, end := Take(n), End(n, if b.ending.Some? then b.ending.value else Abort);
    StepKeeps(s, take, n);
    StepKeeps(s, end, n);
    StepKeeps(Step(s, take), end, n);
    AfterOne(s, take);
    AfterOne(s, end);
    AfterConcat(s, [take], [end]);
    AfterOne(Step(s, take), end);
    assert [take] + [end] == [take, end] && [] + [end] == [end] && [take] + [] == [take];
  }

  lemma AfterOne(s: State, e: Event)
    ensures After(s, [e]) == Step(s, e)
  {
    AfterSnoc(s, [], e);
    assert [] + [e] == [e];
  }

  lemma StepKeeps(s: State, e: Event, n: NodeId)
    requires e.Take? || e.End?
    ensures Step(s, e).caps == s.caps
    ensures n in s.nodes ==> n in Step(s, e).nodes && Step(s, e).nodes[n].sock == s.nodes[n].sock
  {
  }

  /** A round with nobody else about starts from where the one before it ended. */
  lemma SilentRound(es: seq<Event>, n: NodeId, luck: Luck, r: Round)
    requires RoundTaken(es, n, luck, [], r)
    ensures r.at == r.from && After(INITIAL, es[..r.to]).caps == After(INITIAL, es[..r.from]).caps
    ensures var s := After(INITIAL, es[..r.from]); var t := After(INITIAL, es[..r.to]);
      && n in s.nodes && Running(s.nodes[n]) && n in t.nodes && Reachable(t, n) == Reachable(s, n)
      && TurnOutcome(s.nodes[n], Reachable(s, n), luck, r.call, t.nodes[n])
  {
    assert |es[r.from..r.at]| == |Others(n, [])|;
    var s := After(INITIAL, es[..r.at]);
    var t := After(INITIAL, es[..r.to]);
    assert es[..r.to] == es[..r.at] + es[r.at..r.to];
    AfterConcat(INITIAL, es[..r.at], es[r.at..r.to]);
    TurnKeeps(s, n, s.nodes[n], t.nodes[n]);
  }

  /** A run of turns since `start` with nobody else about, and nothing special met. */
  predicate FineLog(es: seq<Event>, n: NodeId, start: nat, log: seq<Round>) {
    && start <= |es|
    && (forall i :: 0 <= i < |log| ==> RoundTaken(es, n, Fine, [], log[i]))
    && Chained(start, log)
    && var s := After(INITIAL, es[..start]);
    n in s.nodes && s.nodes[n].ending.None? && s.nodes[n].taken == 0 && NoneEmpty(s.nodes[n].delivered)
  }

  lemma {:induction false} FineUpTo(es: seq<Event>, n: NodeId, start: nat, log: seq<Round>, i: nat)
    requires FineLog(es, n, start, log) && i <= |log|
    ensures EndOf(start, log, i) <= |es|
    ensures var s := After(INITIAL, es[..start]); var t := After(INITIAL, es[..EndOf(start, log, i)]);
      && n in t.nodes && Reachable(t, n) == Reachable(s, n)
      && t.nodes[n] == FineNode(s.nodes[n], Reachable(s, n), i)
      && Calls(log[..i]) == ReceiveLoop.Fitting(s.nodes[n].delivered[..Least(i, |s.nodes[n].delivered|)])
    decreases i
  {
    var s := After(INITIAL, es[..start]);
    if i > 0 {
      FineUpTo(es, n, start, log, i - 1);
      SilentRound(es, n, Fine, log[i - 1]);
      FineTurn(s.nodes[n], i - 1, Reachable(s, n), log[i - 1].call, After(INITIAL, es[..log[i - 1].to]).nodes[n]);
      FineCalls(log, i - 1, s.nodes[n].delivered);
    }
  }

  lemma FineCalls(log: seq<Round>, i: nat, delivered: seq<Message>)
    requires i < |log| && Calls(log[..i]) == ReceiveLoop.Fitting(delivered[..Least(i, |delivered|)])
    requires log[i].call == if i < |delivered| then ReceiveLoop.Fitting([delivered[i]]) else []
    ensures Calls(log[..i + 1]) == ReceiveLoop.Fitting(delivered[..Least(i + 1, |delivered|)])
  {
    assert log[..i + 1][..i] == log[..i];
    if i < |delivered| {
      assert delivered[..i + 1] == delivered[..i] + [delivered[i]];
      ReceiveLoop.FittingConcat(delivered[..i], [delivered[i]]);
    }
  }

  lemma FineRounds(es: seq<Event>, n: NodeId, start: nat, polls: seq<Luck>, env: nat -> seq<Event>, log: seq<Round>)
    requires RoundsTaken(es, n, start, polls, env, log) && Silent(env) && AllFine(polls) && start <= |es|
    requires var s := After(INITIAL, es[..start]);
      n in s.nodes && s.nodes[n].ending.None? && s.nodes[n].taken == 0 && NoneEmpty(s.nodes[n].delivered)
    ensures FineLog(es, n, start, log)
  {
    forall i | 0 <= i < |log|
      ensures RoundTaken(es, n, Fine, [], log[i])
    {
      assert RoundTaken(es, n, polls[i], env(i), log[i]);
    }
  }

  /** With nobody else about and nothing special met, the turns a task has taken have handed over the records in
      order, one a turn, less those too large; and the task is over exactly if there was a turn to spare and nobody
      could send any more. */
  lemma FineRun(es: seq<Event>, n: NodeId, start: nat, polls: seq<Luck>, env: nat -> seq<Event>, log: seq<Round>)
    requires RoundsTaken(es, n, start, polls, env, log) && Silent(env) && AllFine(polls) && start <= |es|
    requires var s := After(INITIAL, es[..start]);
      n in s.nodes && s.nodes[n].ending.None? && s.nodes[n].taken == 0 && NoneEmpty(s.nodes[n].delivered)
    ensures EndOf(start, log, |log|) <= |es|
    ensures var s := After(INITIAL, es[..start]); var t := After(INITIAL, es[..EndOf(start, log, |log|)]);
      && n in t.nodes
      && HandlesAll(s.nodes[n].delivered, Reachable(s, n), |log|, Calls(log), t.nodes[n].ending.Some?)
  {
    FineRounds(es, n, start, polls, env, log);
    FineUpTo(es, n, start, log, |log|);
    assert log[..|log|] == log;
  }

  /** With nobody else about and nothing special met, as many of the records as there were turns for have been
      handled, less those too large, and the loop is over if there were turns to spare and nobody could send
      any more. */
  predicate HandlesAll(delivered: seq<Message>, reachable: bool, turns: nat, handled: seq<Message>, over: bool) {
    NoneEmpty(delivered) ==>
      && handled == ReceiveLoop.Fitting(delivered[..Least(turns, |delivered|)])
      && (over <==> |delivered| < turns && !reachable)
  }

  /** The order a started task lets go in. */
  const LAST_FIRST: seq<Guard> := [Socket, Entry, Tombstone]

  /** From `end` on the task has let go of what it held then, last first, and nothing else has happened but what
      others were asked to do. */
  predicate LetsGoSince(es: seq<Event>, end: nat, n: NodeId, after: nat -> seq<Event>) {
    && end <= |es|
    && var s := After(INITIAL, es[..end]);
    n in s.nodes && es[end..] == DroppingAll(n, s.nodes[n], LAST_FIRST, after)
  }

  lemma StillUndisturbed(a: Node, b: Node, c: Node, guard: Guard)
    requires Undisturbed(a, b) && Undisturbed(Without(b, guard), c)
    ensures Undisturbed(Without(a, guard), c)
  {
  }

  lemma WithoutThree(node: Node, a: Guard, b: Guard, c: Guard)
    ensures WithoutAll(node, [a]) == Without(node, a)
    ensures WithoutAll(node, [a, b]) == Without(Without(node, a), b)
    ensures WithoutAll(node, [a, b, c]) == Without(Without(Without(node, a), b), c)
  {
    assert [a][..0] == [] && [a, b][..1] == [a] && [a, b, c][..2] == [a, b];
  }

  /** So in that order each may be dropped when its turn comes. */
  lemma LastFirstMay(node: Node, i: nat)
    requires i < 3
    ensures var now := WithoutAll(node, LAST_FIRST[..i]);
      && now == node.(receiving := now.receiving, filed := now.filed, dead := now.dead)
      && (i > 0 ==> !now.receiving) && (i > 1 ==> !now.filed)
  {
    WithoutThree(node, Socket, Entry, Tombstone);
    assert LAST_FIRST[..0] == [] && LAST_FIRST[..1] == [Socket] && LAST_FIRST[..2] == [Socket, Entry];
  }

  lemma AllWithout(node: Node)
    ensures var gone := WithoutAll(node, LAST_FIRST); !gone.receiving && !gone.filed && gone.dead
    ensures WithoutAll(node, LAST_FIRST).ending == node.ending
  {
    WithoutThree(node, Socket, Entry, Tombstone);
  }

  /** An unstarted task may drop them in any order. */
  lemma {:induction false} UnpolledMay(node: Node, order: seq<Guard>, i: nat)
    requires i <= |order|
    ensures var now := WithoutAll(node, order[..i]);
      now == node.(receiving := now.receiving, filed := now.filed, dead := now.dead)
    decreases i
  {
    if i > 0 {
      UnpolledMay(node, order, i - 1);
      assert order[..i][..i - 1] == order[..i - 1];
    }
  }

  lemma {:induction false} GoneFor(node: Node, order: seq<Guard>, guard: Guard)
    requires guard in order
    ensures var now := WithoutAll(node, order);
      && (guard.Socket? ==> !now.receiving) && (guard.Entry? ==> !now.filed) && (guard.Tombstone? ==> now.dead)
    decreases |order|
  {
    var i := |order| - 1;
    if order[i] != guard {
      GoneFor(node, order[..i], guard);
    }
  }

  lemma AllDropped(node: Node, order: seq<Guard>)
    requires Socket in order && Entry in order && Tombstone in order
    ensures var gone := WithoutAll(node, order); !gone.receiving && !gone.filed && gone.dead
    ensures WithoutAll(node, order) == node.(receiving := false, filed := false, dead := true)
  {
    GoneFor(node, order, Socket);
    GoneFor(node, order, Entry);
    GoneFor(node, order, Tombstone);
    UnpolledMay(node, order, |order|);
    assert order[..|order|] == order;
  }
}
