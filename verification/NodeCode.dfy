/** Nodes as the code runs them: `new_raw`, the task it spawns, `to_service`, and the registry of
    local handlers, with arbitrary interference between atomic actions. */
module NodeCode {
  import opened Wire
  import opened Nodes
  import opened NodeInvariant
  import opened NodeLifetime
  import opened NodeTrace
  import ReceiveLoop
  import Caps = Capabilities

  class Host {
    var caps: Caps.State
    var nodes: map<NodeId, Node>
    var locals: map<Caps.SocketId, Address>
    ghost var trace: seq<Event>

    function Abs(): State
      reads this
    {
      State(caps, nodes, locals)
    }

    ghost predicate Valid()
      reads this
    {
      Abs() == After(INITIAL, trace)
    }

    constructor ()
      ensures Valid() && Abs() == INITIAL
    {
      caps, nodes, locals, trace := Caps.INITIAL, map[], map[], [];
    }

    ghost method Record(e: Event, before: State)
      requires before == After(INITIAL, trace) && Enabled(before, e) && Abs() == Apply(before, e)
      modifies this`trace
      ensures Valid() && trace == old(trace) + [e]
    {
      AfterSnoc(INITIAL, trace, e);
      trace := trace + [e];
    }

    method Other(e: Event)
      requires Valid()
      modifies this
      ensures Valid() && trace == old(trace) + [e] && Abs() == Step(old(Abs()), e)
    {
      AfterSnoc(INITIAL, trace, e);
      var s := Step(Abs(), e);
      caps, nodes, locals := s.caps, s.nodes, s.locals;
      trace := trace + [e];
    }

    /** Whatever others are asked to do that is not node `n`'s task's doing, and nothing else. */
    method Interfere(n: NodeId, others: seq<Event>)
      requires Valid() && n in nodes
      modifies this
      ensures Valid() && trace == old(trace) + Others(n, others) && n in nodes && Undisturbed(old(nodes)[n], nodes[n])
      ensures others == [] ==> Abs() == old(Abs())
    {
      ghost var start, s := nodes[n], Abs();
      for i := 0 to |others|
        invariant trace == old(trace) + Others(n, others[..i])
        invariant Valid() && n in nodes && Undisturbed(start, nodes[n])
        invariant i == 0 ==> Abs() == s
      {
        OthersSnoc(n, others, i);
        if !TaskStep(others[i], n) {
          ForeignStep(Abs(), others[i], n);
          Other(others[i]);
        }
      }
      assert others[..|others|] == others;
    }

    // ---- The registry of local handlers ----

    /** `LOCALS.insert` in `LocalEntry::file`. */
    method Insert(id: Caps.SocketId, address: Address)
      modifies this`locals
      ensures locals == old(locals)[id := address]
    {
      locals := locals[id := address];
    }

    /** `LOCALS.remove_if` in `LocalEntry::drop`: nobody finds this address under the identity any
        more, and everybody else's entry is as it was. */
    method RemoveIf(id: Caps.SocketId, address: Address)
      modifies this`locals
      ensures id in locals ==> locals[id] != address
      ensures forall other :: other in locals ==> other in old(locals) && locals[other] == old(locals)[other]
      ensures forall other :: other in old(locals) && (other != id || old(locals)[other] != address) ==> other in locals
    {
      if id in locals && locals[id] == address {
        locals := locals - {id};
      }
    }

    /** `local_handler`: look up, then upgrade. */
    method Lookup(id: Caps.SocketId, outside: set<Address>) returns (handler: Option<Address>)
      requires Valid()
      ensures handler == LocalHandler(Abs(), id, outside)
      ensures handler.Some? ==> exists n :: n in nodes && FiledBy(Abs(), id, n) && nodes[n].address == handler.value
    {
      Always(trace);
      if id !in locals {
        return None;
      }
      var address := locals[id];
      assert exists n :: n in nodes && FiledBy(Abs(), id, n);
      handler := if HandlerAlive(Abs(), address, outside) then Some(address) else None;
    }

    // ---- The handle ----

    /** The rest of `new_raw`, once the socket pair and its `Ref` are made. */
    method NewRaw(n: NodeId, k: Caps.InnerId, sock: Caps.Sock, address: Address)
      requires Valid() && Enabled(Abs(), Create(n, k, sock, address))
      modifies this
      ensures Valid() && trace == old(trace) + [Create(n, k, sock, address)]
      ensures n in nodes && nodes[n].sock == sock && nodes[n].handle.Kept? && !nodes[n].polled && nodes[n].ending.None?
      ensures k in caps.inners && nodes[n].id == caps.inners[k].id
      ensures nodes[n].id.Some? ==> FiledBy(Abs(), nodes[n].id.value, n)
      ensures nodes == old(nodes)[n := nodes[n]] && caps == old(caps) && nodes[n].address == address
      ensures locals == if nodes[n].id.Some? then old(locals)[nodes[n].id.value := address] else old(locals)
    {
      ghost var before := Abs();
      var id := caps.inners[k].id;
      if id.Some? {
        Insert(id.value, address);
      }
      nodes := nodes[n := Node(sock, id, address, Kept, false, [], 0, None, true, id.Some?, false)];
      Record(Create(n, k, sock, address), before);
    }

    method SetHandle(n: NodeId, handle: Handle)
      requires n in nodes
      modifies this`nodes
      ensures nodes == old(nodes)[n := old(nodes)[n].(handle := handle)]
    {
      nodes := nodes[n := nodes[n].(handle := handle)];
    }

    /** `Node::to_service`: the abort is disarmed, and nothing else happens. */
    method GiveUp(n: NodeId)
      requires Valid() && n in nodes && nodes[n].handle.Kept?
      modifies this
      ensures Valid() && trace == old(trace) + [ToService(n)] && Abs() == AsService(old(Abs()), n)
      ensures nodes == old(nodes)[n := old(nodes)[n].(handle := Service)] && caps == old(caps) && locals == old(locals)
    {
      ghost var before := Abs();
      SetHandle(n, Service);
      Record(ToService(n), before);
    }

    /** Dropping a `Node` asks for its task's abort. */
    method DropHandle(n: NodeId)
      requires Valid() && n in nodes && nodes[n].handle.Kept?
      modifies this
      ensures Valid() && trace == old(trace) + [DropNode(n)]
      ensures nodes == old(nodes)[n := old(nodes)[n].(handle := Dropped)] && caps == old(caps) && locals == old(locals)
    {
      ghost var before := Abs();
      SetHandle(n, Dropped);
      Record(DropNode(n), before);
    }

    // ---- The task ----

    method Update(n: NodeId, node: Node)
      modifies this`nodes
      ensures nodes == old(nodes)[n := node]
    {
      nodes := nodes[n := node];
    }

    method EndAction(n: NodeId, reason: Reason)
      requires Valid() && n in nodes && nodes[n].ending.None? && CanEnd(Abs(), n, reason)
      modifies this
      ensures Valid() && trace == old(trace) + [End(n, reason)] && OnlyNode(n, Ended(old(nodes)[n], reason))
    {
      ghost var before := Abs();
      Update(n, Ended(nodes[n], reason));
      Record(End(n, reason), before);
    }

    /** Nothing has changed but this node, which is now so. */
    twostate predicate OnlyNode(n: NodeId, node: Node)
      reads this
    {
      nodes == old(nodes)[n := node] && caps == old(caps) && locals == old(locals)
    }

    method PollAction(n: NodeId)
      requires Valid() && n in nodes && !nodes[n].polled && nodes[n].ending.None?
      modifies this
      ensures Valid() && trace == old(trace) + [Poll(n)] && OnlyNode(n, old(nodes)[n].(polled := true))
    {
      ghost var before := Abs();
      Update(n, nodes[n].(polled := true));
      Record(Poll(n), before);
    }

    method TakeAction(n: NodeId)
      requires Valid() && n in nodes && Running(nodes[n]) && HasRecord(nodes[n]) && !NextIsEmpty(nodes[n])
      modifies this
      ensures Valid() && trace == old(trace) + [Take(n)]
      ensures OnlyNode(n, old(nodes)[n].(taken := old(nodes)[n].taken + 1))
    {
      ghost var before := Abs();
      Update(n, nodes[n].(taken := nodes[n].taken + 1));
      Record(Take(n), before);
    }

    /** What the next read of the task's socket finds. */
    function NextArrival(n: NodeId, luck: Luck): ReceiveLoop.Arrival
      requires n in nodes
      reads this
    {
      if luck.Fails? then ReceiveLoop.Fault
      else if HasRecord(nodes[n]) then ReceiveLoop.Record(nodes[n].delivered[nodes[n].taken])
      else if Reachable(Abs(), n) then ReceiveLoop.NotReady
      else ReceiveLoop.Hangup
    }

    /** One turn of `recv_loop`: the handler call made, if any. */
    method Turn(n: NodeId, luck: Luck, buf: array<Byte>, marks: seq<Byte>) returns (call: seq<Message>)
      requires Valid() && n in nodes && Running(nodes[n]) && buf.Length == MAX_MESSAGE_SIZE
      modifies this, buf
      ensures Valid() && n in nodes && OnlyNode(n, nodes[n])
      ensures TurnOutcome(old(nodes)[n], Reachable(old(Abs()), n), luck, call, nodes[n])
      ensures trace == old(trace) + TurnSteps(n, old(nodes)[n], nodes[n])
    {
      call := [];
      if luck.Cancelled? && nodes[n].handle.Dropped? {
        EndAction(n, Abort);
      } else {
        var a := NextArrival(n, luck);
        var dropped, on;
        call, dropped, on := ReceiveLoop.TakeArrival(buf, a, marks);
        if on {
          GoOn(n, a, luck, call);
        } else {
          GiveOut(n, a, luck);
        }
      }
    }

    /** The loop ends, for the reason it was told. */
    method GiveOut(n: NodeId, a: ReceiveLoop.Arrival, luck: Luck)
      requires Valid() && n in nodes && Running(nodes[n]) && !(luck.Cancelled? && nodes[n].handle.Dropped?)
      requires a == NextArrival(n, luck) && ReceiveLoop.Ends(a)
      modifies this
      ensures Valid() && n in nodes && OnlyNode(n, nodes[n])
      ensures TurnOutcome(old(nodes)[n], Reachable(old(Abs()), n), luck, [], nodes[n])
      ensures trace == old(trace) + TurnSteps(n, old(nodes)[n], nodes[n])
    {
      EndAction(n, if a.Fault? then Fault else if a.Hangup? then Hangup else EmptyRecord);
    }

    /** What the turn leaves behind when the loop goes on: the record read, if there was one, and the
        handler's panic, if it was called and did. */
    method GoOn(n: NodeId, a: ReceiveLoop.Arrival, luck: Luck, call: seq<Message>)
      requires Valid() && n in nodes && Running(nodes[n]) && !(luck.Cancelled? && nodes[n].handle.Dropped?)
      requires a == NextArrival(n, luck) && !ReceiveLoop.Ends(a)
      requires call == ReceiveLoop.Fitting(ReceiveLoop.Records([a]))
      modifies this
      ensures Valid() && n in nodes && OnlyNode(n, nodes[n])
      ensures TurnOutcome(old(nodes)[n], Reachable(old(Abs()), n), luck, call, nodes[n])
      ensures trace == old(trace) + TurnSteps(n, old(nodes)[n], nodes[n])
    {
      if a.Record? {
        assert ReceiveLoop.Records([a]) == [a.message];
        TakeAction(n);
        if luck.Panics? && call != [] {
          EndAction(n, Panic);
        }
      } else {
        assert ReceiveLoop.Records([a]) == [];
        assert nodes == nodes[n := nodes[n]];
      }
    }

    /** Runs on for a turn: interference, then `Turn`. */
    method NextTurn(n: NodeId, luck: Luck, others: seq<Event>, buf: array<Byte>, marks: seq<Byte>,
                    ghost handled: seq<Message>)
      returns (call: seq<Message>, ghost r: Round)
      requires Valid() && n in nodes && Running(nodes[n]) && Served(nodes[n], handled)
      requires buf.Length == MAX_MESSAGE_SIZE
      modifies this, buf
      ensures Valid() && n in nodes && nodes[n].polled && Served(nodes[n], handled + call)
      ensures RoundTaken(trace, n, luck, others, r) && old(trace) <= trace
      ensures r.from == |old(trace)| && r.to == |trace| && r.call == call
      ensures nodes[n].ending.Some? ==> EndsFor(nodes[n].ending.value, luck, call)
    {
      ghost var before, start := nodes[n], trace;
      Interfere(n, others);
      ServedSame(before, nodes[n], handled);
      ghost var at, s := trace, Abs();
      call := Turn(n, luck, buf, marks);
      ServedTurn(s.nodes[n], Reachable(s, n), luck, call, nodes[n], handled);
      r := Round(|start|, |at|, |trace|, call);
      RoundMade(start, at, trace, n, luck, others, call);
    }

    /** The async block of `new_raw`: `recv_loop` until it ends or the schedule does, then what the
        block holds, in the order it is let go, `after` being what others do meanwhile. `log` accounts
        for every turn, and with the letting go for every step of the schedule; `marks` is what the
        handler leaves in its slice of the one buffer. */
    method RunTask(n: NodeId, polls: seq<Luck>, env: nat -> seq<Event>, after: nat -> seq<Event>, marks: nat -> seq<Byte>)
      returns (handled: seq<Message>, over: bool, ghost log: seq<Round>)
      requires Valid() && n in nodes && !nodes[n].polled && nodes[n].ending.None?
      modifies this
      ensures Valid() && n in nodes && Served(nodes[n], handled)
      ensures RoundsTaken(trace, n, |old(trace)| + 1, polls, env, log) && handled == Calls(log)
      ensures if over then AllGone(nodes[n]) && EndedBy(nodes[n], polls, log)
              else Running(nodes[n]) && |log| == |polls|
      ensures var end := EndOf(|old(trace)| + 1, log, |log|);
              old(trace) + [Poll(n)] <= trace && if over then LetsGoSince(trace, end, n, after) else end == |trace|
    {
      FirstPoll(n);
      handled, over, log := RunLoop(n, polls, env, marks);
      if over {
        ghost var ended := trace;
        WindUp(n, after, handled, polls, log);
        RoundsKept(ended, trace, n, polls, env, log);
      }
    }

    method FirstPoll(n: NodeId)
      requires Valid() && n in nodes && !nodes[n].polled && nodes[n].ending.None?
      modifies this
      ensures Valid() && n in nodes && Running(nodes[n]) && nodes[n].taken == 0 && trace == old(trace) + [Poll(n)]
    {
      Always(trace);
      assert NodeOk(Abs(), n);
      PollAction(n);
    }

    /** The end of the block. */
    method WindUp(n: NodeId, after: nat -> seq<Event>, ghost handled: seq<Message>, ghost polls: seq<Luck>,
                  ghost log: seq<Round>)
      requires Valid() && n in nodes && nodes[n].polled && nodes[n].ending.Some? && Served(nodes[n], handled)
      requires 0 < |log| <= |polls| && EndsFor(nodes[n].ending.value, polls[|log| - 1], log[|log| - 1].call)
      modifies this
      ensures Valid() && n in nodes && AllGone(nodes[n]) && Served(nodes[n], handled) && EndedBy(nodes[n], polls, log)
      ensures old(trace) <= trace && LetsGoSince(trace, |old(trace)|, n, after)
    {
      ghost var ended := trace;
      LetGo(n, after, handled);
      assert trace[..|ended|] == ended;
      WhyEnded(trace, n, polls, log);
    }

    /** `recv_loop`, for as many turns as the schedule gives it. */
    method RunLoop(n: NodeId, polls: seq<Luck>, env: nat -> seq<Event>, marks: nat -> seq<Byte>)
      returns (handled: seq<Message>, over: bool, ghost log: seq<Round>)
      requires Valid() && n in nodes && Running(nodes[n]) && nodes[n].taken == 0
      modifies this
      ensures Valid() && n in nodes && nodes[n].polled && Served(nodes[n], handled) && old(trace) <= trace
      ensures RoundsTaken(trace, n, |old(trace)|, polls, env, log) && handled == Calls(log)
      ensures EndOf(|old(trace)|, log, |log|) == |trace|
      ensures if over then 0 < |log| && nodes[n].ending.Some? && EndsFor(nodes[n].ending.value, polls[|log| - 1], log[|log| - 1].call)
              else Running(nodes[n]) && |log| == |polls|
    {
      ghost var start := trace;
      var buf := new Byte[MAX_MESSAGE_SIZE];
      handled, over, log := [], false, [];
      assert nodes[n].delivered[..0] == [];
      for i := 0 to |polls|
        invariant Valid() && n in nodes && Running(nodes[n]) && Served(nodes[n], handled) && start <= trace
        invariant |log| == i && RoundsTaken(trace, n, |start|, polls, env, log) && handled == Calls(log)
        invariant EndOf(|start|, log, i) == |trace|
      {
        var call;
        call, log := RunOnce(n, polls, env, i, buf, marks(i), handled, |start|, log);
        handled := handled + call;
        if nodes[n].ending.Some? {
          over := true;
          return;
        }
      }
    }

    /** One turn more. */
    method RunOnce(n: NodeId, polls: seq<Luck>, env: nat -> seq<Event>, i: nat, buf: array<Byte>, marks: seq<Byte>,
                   ghost handled: seq<Message>, ghost start: nat, ghost log: seq<Round>)
      returns (call: seq<Message>, ghost longer: seq<Round>)
      requires Valid() && n in nodes && Running(nodes[n]) && Served(nodes[n], handled) && buf.Length == MAX_MESSAGE_SIZE
      requires |log| == i < |polls| && RoundsTaken(trace, n, start, polls, env, log) && EndOf(start, log, i) == |trace|
      modifies this, buf
      ensures Valid() && n in nodes && nodes[n].polled && Served(nodes[n], handled + call) && old(trace) <= trace
      ensures |longer| == i + 1 && RoundsTaken(trace, n, start, polls, env, longer)
      ensures EndOf(start, longer, i + 1) == |trace| && Calls(longer) == Calls(log) + call && longer[i].call == call
      ensures nodes[n].ending.Some? ==> EndsFor(nodes[n].ending.value, polls[i], call)
    {
      ghost var earlier := trace;
      ghost var r;
      call, r := NextTurn(n, polls[i], env(i), buf, marks, handled);
      RoundAdded(earlier, trace, n, start, polls, env, log, r);
      longer := log + [r];
    }

    method LetGo(n: NodeId, after: nat -> seq<Event>, ghost handled: seq<Message>)
      requires Valid() && n in nodes && nodes[n].polled && nodes[n].ending.Some? && Served(nodes[n], handled)
      modifies this
      ensures Valid() && n in nodes && AllGone(nodes[n]) && Served(nodes[n], handled)
      ensures nodes[n].ending == old(nodes)[n].ending
      ensures trace == old(trace) + DroppingAll(n, old(nodes)[n], LAST_FIRST, after)
    {
      ghost var node := nodes[n];
      for i := 0 to |LAST_FIRST|
        invariant Valid() && n in nodes && Undisturbed(WithoutAll(node, LAST_FIRST[..i]), nodes[n])
        invariant Served(nodes[n], handled)
        invariant trace == old(trace) + DroppingAll(n, node, LAST_FIRST[..i], after)
      {
        LastFirstMay(node, i);
        ReleaseNext(n, node, LAST_FIRST, i, after, old(trace), handled);
      }
      assert LAST_FIRST[..|LAST_FIRST|] == LAST_FIRST;
      AllWithout(node);
    }

    /** Drops the next of these. */
    method ReleaseNext(n: NodeId, ghost node: Node, order: seq<Guard>, i: nat, env: nat -> seq<Event>,
                       ghost start: seq<Event>, ghost handled: seq<Message>)
      requires Valid() && n in nodes && nodes[n].ending.Some? && i < |order| && MayRelease(nodes[n], order[i])
      requires Undisturbed(WithoutAll(node, order[..i]), nodes[n]) && Served(nodes[n], handled)
      requires trace == start + DroppingAll(n, node, order[..i], env)
      modifies this
      ensures Valid() && n in nodes && Undisturbed(WithoutAll(node, order[..i + 1]), nodes[n]) && Served(nodes[n], handled)
      ensures trace == start + DroppingAll(n, node, order[..i + 1], env)
    {
      ghost var before := nodes[n];
      Release(n, order[i], env(i), handled);
      DroppingSnoc(n, node, order, env, i, before, nodes[n]);
      Joined(start, DroppingAll(n, node, order[..i], env), Dropping(n, before, order[i], env(i)));
    }

    /** The order in which it is safe to let go of what the task holds. */
    predicate MayRelease(node: Node, guard: Guard) {
      match guard
      case Socket => true
      case Entry => node.polled ==> !node.receiving
      case Tombstone => node.polled ==> !node.receiving && !node.filed
    }

    /** Drops one thing the task holds, if it still does. */
    method Release(n: NodeId, guard: Guard, others: seq<Event>, ghost handled: seq<Message>)
      requires Valid() && n in nodes && nodes[n].ending.Some? && MayRelease(nodes[n], guard)
      requires Served(nodes[n], handled)
      modifies this
      ensures Valid() && n in nodes && Undisturbed(Without(old(nodes)[n], guard), nodes[n])
      ensures Served(nodes[n], handled)
      ensures trace == old(trace) + Dropping(n, old(nodes)[n], guard, others)
    {
      ghost var before := nodes[n];
      Interfere(n, others);
      FrameSame(before, nodes[n], guard);
      ServedSame(before, nodes[n], handled);
      if guard in Frame(nodes[n]) {
        ReleaseAction(n, guard);
      }
      ServedSame(Without(before, guard), nodes[n], handled);
    }

    method ReleaseAction(n: NodeId, guard: Guard)
      requires Valid() && n in nodes && nodes[n].ending.Some? && MayRelease(nodes[n], guard) && guard in Frame(nodes[n])
      modifies this
      ensures Valid() && n in nodes && nodes[n] == Without(old(nodes)[n], guard) && trace == old(trace) + [LetsGo(n, guard)]
    {
      match guard {
        case Socket => CloseAction(n);
        case Entry => UnfileAction(n);
        case Tombstone => DeclareAction(n);
      }
    }

    method CloseAction(n: NodeId)
      requires Valid() && n in nodes && nodes[n].ending.Some? && nodes[n].receiving
      modifies this
      ensures Valid() && OnlyNode(n, old(nodes)[n].(receiving := false)) && trace == old(trace) + [CloseSocket(n)]
    {
      ghost var before := Abs();
      DropOrder(nodes[n]);
      Update(n, nodes[n].(receiving := false));
      Record(CloseSocket(n), before);
    }

    method UnfileAction(n: NodeId)
      requires Valid() && n in nodes && nodes[n].ending.Some? && MayRelease(nodes[n], Entry) && nodes[n].filed
      modifies this
      ensures Valid() && n in nodes && nodes[n] == old(nodes)[n].(filed := false) && trace == old(trace) + [Unfile(n)]
    {
      ghost var before := Abs();
      DropOrder(nodes[n]);
      if nodes[n].id.Some? {
        RemoveIf(nodes[n].id.value, nodes[n].address);
      }
      Update(n, nodes[n].(filed := false));
      Record(Unfile(n), before);
    }

    method DeclareAction(n: NodeId)
      requires Valid() && n in nodes && nodes[n].ending.Some? && MayRelease(nodes[n], Tombstone) && !nodes[n].dead
      modifies this
      ensures Valid() && OnlyNode(n, old(nodes)[n].(dead := true)) && trace == old(trace) + [Declare(n)]
    {
      ghost var before := Abs();
      DropOrder(nodes[n]);
      Update(n, nodes[n].(dead := true));
      Record(Declare(n), before);
    }

    /** A task aborted before its first poll drops what it captured, in whatever order that is. */
    method DropUnpolled(n: NodeId, order: seq<Guard>, env: nat -> seq<Event>)
      requires Valid() && n in nodes && !nodes[n].polled && nodes[n].ending.None? && nodes[n].handle.Dropped?
      requires |order| == 3 && Socket in order && Entry in order && Tombstone in order
      modifies this
      ensures Valid() && n in nodes && AllGone(nodes[n]) && nodes[n].ending == Some(Abort) && nodes[n].taken == 0
      ensures trace == old(trace) + [End(n, Abort)] + DroppingAll(n, Ended(old(nodes)[n], Abort), order, env)
    {
      Always(trace);
      assert NodeOk(Abs(), n);
      EndAction(n, Abort);
      ghost var node, start := nodes[n], trace;
      assert node.delivered[..0] == [];
      for i := 0 to |order|
        invariant Valid() && n in nodes && Undisturbed(WithoutAll(node, order[..i]), nodes[n])
        invariant Served(nodes[n], [])
        invariant trace == start + DroppingAll(n, node, order[..i], env)
      {
        UnpolledMay(node, order, i);
        ReleaseNext(n, node, order, i, env, start, []);
      }
      assert order[..|order|] == order;
      AllDropped(node, order);
    }
  }
}
