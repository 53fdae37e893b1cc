/** A map keyed by `Ref` is a map keyed by socket: what a node keeps per peer finds the peer again,
    on whichever descriptor it arrives, whatever other holders do between arrivals. */
module Keying {
  import opened Wire
  import opened Capabilities
  import opened CapabilityInvariant
  import opened CapabilityCode

  function Count(socks: seq<Sock>, sock: Sock): nat {
    if socks == [] then 0 else (if socks[0] == sock then 1 else 0) + Count(socks[1..], sock)
  }

  lemma {:induction false} CountSnoc(socks: seq<Sock>, last: Sock, sock: Sock)
    ensures Count(socks + [last], sock) == Count(socks, sock) + (if last == sock then 1 else 0)
  {
    if socks == [] {
      assert [] + [last] == [last] && [last][1..] == [];
    } else {
      assert (socks + [last])[1..] == socks[1..] + [last];
      CountSnoc(socks[1..], last, sock);
    }
  }

  lemma {:induction false} CountPositive(socks: seq<Sock>, sock: Sock)
    ensures Count(socks, sock) > 0 <==> sock in socks
  {
    if socks != [] {
      CountPositive(socks[1..], sock);
      assert socks == [socks[0]] + socks[1..];
    }
  }

  /** The map a process keyed by sockets would keep. */
  function BySocket(socks: seq<Sock>): map<Sock, nat> {
    map sock | sock in socks :: Count(socks, sock)
  }

  /** The socket a `RefInner` sends on. */
  function SocketOf(s: State, k: InnerId): Sock {
    if k in s.inners && s.inners[k].fd in s.fds then s.fds[s.inners[k].fd].sock else 0
  }

  /** A live capability for a socket that arrived, with that socket's count. */
  predicate KeyAgrees(s: State, k: InnerId, count: nat, socks: seq<Sock>) {
    LiveFiled(s, k) && SendsOn(s, k, SocketOf(s, k)) && SocketOf(s, k) in socks && count == Count(socks, SocketOf(s, k))
  }

  /** Every key agrees, and every socket that arrived has a key. */
  predicate Agrees(s: State, counts: map<InnerId, nat>, socks: seq<Sock>) {
    && (forall k :: k in counts ==> KeyAgrees(s, k, counts[k], socks))
    && (forall sock :: sock in socks ==> exists k :: k in counts && SocketOf(s, k) == sock)
  }

  /** One reference in hand for each key. */
  function Keys(counts: map<InnerId, nat>): Mine {
    Mine(map k | k in counts :: 1, {}, {})
  }

  /** The keys and the sockets are in one-to-one correspondence, with equal counts. */
  predicate OneEntryPerSocket(s: State, counts: map<InnerId, nat>, bySocket: map<Sock, nat>) {
    && |counts| == |bySocket|
    && (forall k :: k in counts ==>
          SendsOn(s, k, SocketOf(s, k)) && SocketOf(s, k) in bySocket && bySocket[SocketOf(s, k)] == counts[k])
    && (forall sock :: sock in bySocket ==> exists k :: k in counts && SocketOf(s, k) == sock)
    && (forall k1, k2 :: k1 in counts && k2 in counts && SocketOf(s, k1) == SocketOf(s, k2) ==> k1 == k2)
  }

  /** An injection onto a set preserves its size. */
  lemma {:induction false} SameSize(keys: set<InnerId>, image: set<Sock>, s: State)
    requires forall k :: k in keys ==> SocketOf(s, k) in image
    requires forall k1, k2 :: k1 in keys && k2 in keys && SocketOf(s, k1) == SocketOf(s, k2) ==> k1 == k2
    requires forall sock :: sock in image ==> exists k :: k in keys && SocketOf(s, k) == sock
    ensures |keys| == |image|
    decreases keys
  {
    if keys == {} {
      assert image == {};
    } else {
      var k :| k in keys;
      var rest := keys - {k};
      var sock := SocketOf(s, k);
      forall x | x in image - {sock}
        ensures exists j :: j in rest && SocketOf(s, j) == x
      {
        var j :| j in keys && SocketOf(s, j) == x;
        assert j in rest;
      }
      SameSize(rest, image - {sock}, s);
    }
  }

  /** Live filed capabilities know their socket, and no two share it. */
  lemma KeysAreDistinct(es: seq<Event>, k1: InnerId, k2: InnerId)
    requires LiveFiled(After(INITIAL, es), k1) && LiveFiled(After(INITIAL, es), k2)
    ensures var s := After(INITIAL, es);
      && SendsOn(s, k1, SocketOf(s, k1)) && SendsOn(s, k2, SocketOf(s, k2))
      && (SocketOf(s, k1) == SocketOf(s, k2) ==> k1 == k2)
  {
    var s := After(INITIAL, es);
    Reachable(es);
    assert Owns(s, k1) && Owns(s, k2);
    Canonical(es, k1, k2, SocketOf(s, k1), SocketOf(s, k2));
  }

  lemma AgreementIsOneToOne(es: seq<Event>, counts: map<InnerId, nat>, socks: seq<Sock>)
    requires Agrees(After(INITIAL, es), counts, socks)
    ensures OneEntryPerSocket(After(INITIAL, es), counts, BySocket(socks))
  {
    var s := After(INITIAL, es);
    forall k1, k2 | k1 in counts && k2 in counts && SocketOf(s, k1) == SocketOf(s, k2)
      ensures k1 == k2
    {
      assert KeyAgrees(s, k1, counts[k1], socks) && KeyAgrees(s, k2, counts[k2], socks);
      KeysAreDistinct(es, k1, k2);
    }
    SameSize(counts.Keys, BySocket(socks).Keys, s);
  }

  /** What others do leaves the agreement alone. */
  lemma AgreesKept(s: State, es: seq<Event>, counts: map<InnerId, nat>, socks: seq<Sock>, mine: Mine)
    requires Agrees(s, counts, socks) && SameHoldings(s, After(INITIAL, es), mine)
    requires forall k :: k in counts ==> k in mine.refs
    ensures Agrees(After(INITIAL, es), counts, socks)
  {
    var t := After(INITIAL, es);
    forall k | k in counts
      ensures SocketOf(t, k) == SocketOf(s, k) && KeyAgrees(t, k, counts[k], socks)
    {
      assert KeyAgrees(s, k, counts[k], socks);
      assert SendsOn(t, k, SocketOf(s, k));
      StillLive(es, s, k, mine);
    }
  }

  function Tallied(counts: map<InnerId, nat>, k: InnerId): map<InnerId, nat> {
    counts[k := (if k in counts then counts[k] else 0) + 1]
  }

  /** An arrival recognised as a key adds one to its count; any other adds a key. */
  lemma AgreesAfter(es: seq<Event>, counts: map<InnerId, nat>, socks: seq<Sock>, k: InnerId, sock: Sock)
    requires var s := After(INITIAL, es); Agrees(s, counts, socks) && LiveFiled(s, k) && SendsOn(s, k, sock)
    ensures Agrees(After(INITIAL, es), Tallied(counts, k), socks + [sock])
  {
    var s := After(INITIAL, es);
    forall j | j in Tallied(counts, k)
      ensures KeyAgrees(s, j, Tallied(counts, k)[j], socks + [sock])
    {
      CountSnoc(socks, sock, SocketOf(s, j));
      CountPositive(socks, SocketOf(s, j));
      if j in counts {
        assert KeyAgrees(s, j, counts[j], socks);
        KeysAreDistinct(es, j, k);
      } else if SocketOf(s, j) in socks {
        KeyIsKnown(es, counts, socks, k);
      }
    }
    forall x | x in socks + [sock]
      ensures exists j :: j in Tallied(counts, k) && SocketOf(s, j) == x
    {
      if x in socks {
        var j :| j in counts && SocketOf(s, j) == x;
        assert j in Tallied(counts, k);
      } else {
        assert k in Tallied(counts, k) && SocketOf(s, k) == x;
      }
    }
  }

  /** A capability for a socket that arrived before is a key already. */
  lemma KeyIsKnown(es: seq<Event>, counts: map<InnerId, nat>, socks: seq<Sock>, k: InnerId)
    requires Agrees(After(INITIAL, es), counts, socks)
    requires LiveFiled(After(INITIAL, es), k) && SocketOf(After(INITIAL, es), k) in socks
    ensures k in counts
  {
    var s := After(INITIAL, es);
    var j :| j in counts && SocketOf(s, j) == SocketOf(s, k);
    assert KeyAgrees(s, j, counts[j], socks);
    KeysAreDistinct(es, j, k);
  }

  /** The keys, and a descriptor on its way to becoming one. */
  function Arriving(counts: map<InnerId, nat>, fd: Fd): Mine {
    Keys(counts).(fds := {fd})
  }

  /** Whether recognised or new, an arrival leaves one reference in hand for each key. */
  lemma KeysAfter(counts: map<InnerId, nat>, fd: Fd, k: InnerId)
    ensures k !in counts ==> Gain(Arriving(counts, fd), fd, k) == Keys(Tallied(counts, k))
    ensures k in counts ==>
      k in Gain(Arriving(counts, fd), fd, k).refs && Lose(Gain(Arriving(counts, fd), fd, k), k) == Keys(Tallied(counts, k))
  {
  }

  lemma ReceiveHoldings(s: State, fd: Fd, mine: Mine)
    requires Inv(s) && Holds(s, mine) && Enabled(s, Receive(fd)) && fd !in mine.fds
    ensures SameHoldings(s, Step(s, Receive(fd)), mine) && LooseAt(Step(s, Receive(fd)), fd)
    ensures Step(s, Receive(fd)).fds[fd].sock == s.fds[fd].sock
  {
    ForeignStep(s, mine, Receive(fd));
  }

  method TakeDescriptor(p: Process, fd: Fd, counts: map<InnerId, nat>, ghost socks: seq<Sock>)
    requires p.Valid() && Holds(p.Abs(), Keys(counts)) && Agrees(p.Abs(), counts, socks)
    requires fd in p.fds && p.fds[fd].role.InFlight?
    modifies p
    ensures p.Valid() && Holds(p.Abs(), Arriving(counts, fd)) && Agrees(p.Abs(), counts, socks)
    ensures p.fds[fd].sock == old(p.fds)[fd].sock && p.trace == old(p.trace) + [Receive(fd)]
  {
    ghost var start := p.Abs();
    Reachable(p.trace);
    p.Other(Receive(fd));
    ReceiveHoldings(start, fd, Keys(counts));
    AgreesKept(start, p.trace, counts, socks, Keys(counts));
  }

  method RecogniseArrival(p: Process, fd: Fd, counts: map<InnerId, nat>, ghost socks: seq<Sock>, others: seq<Event>)
    returns (k: InnerId)
    requires p.Valid() && Holds(p.Abs(), Arriving(counts, fd)) && Agrees(p.Abs(), counts, socks)
    modifies p
    ensures p.Valid() && Holds(p.Abs(), Gain(Arriving(counts, fd), fd, k))
    ensures Agrees(p.Abs(), Tallied(counts, k), socks + [old(p.fds)[fd].sock])
    ensures Interns(After(INITIAL, old(p.trace)), old(p.trace), p.trace, fd, true, k, others)
  {
    ghost var start := p.Abs();
    assert Without(Arriving(counts, fd), fd) == Keys(counts);
    k := p.FromFd(fd, true, Arriving(counts, fd), others);
    AgreesKept(start, p.trace, counts, socks, Keys(counts));
    AgreesAfter(p.trace, counts, socks, k, start.fds[fd].sock);
  }

  /** Receives the descriptor and makes it a `Ref`. */
  method Recognise(p: Process, fd: Fd, counts: map<InnerId, nat>, ghost socks: seq<Sock>, others: seq<Event>)
    returns (k: InnerId)
    requires p.Valid() && Holds(p.Abs(), Keys(counts)) && Agrees(p.Abs(), counts, socks)
    requires fd in p.fds && p.fds[fd].role.InFlight?
    modifies p
    ensures p.Valid() && Holds(p.Abs(), Gain(Arriving(counts, fd), fd, k))
    ensures Agrees(p.Abs(), Tallied(counts, k), socks + [old(p.fds)[fd].sock])
    ensures Received(old(p.trace), p.trace, fd, k, others)
  {
    TakeDescriptor(p, fd, counts, socks);
    k := RecogniseArrival(p, fd, counts, socks, others);
  }

  /** Keeps a new key, and drops the second `Ref` of a known one. */
  method Settle(p: Process, fd: Fd, k: InnerId, counts: map<InnerId, nat>, ghost socks: seq<Sock>, others: seq<Event>)
    returns (after: map<InnerId, nat>)
    requires p.Valid() && Holds(p.Abs(), Gain(Arriving(counts, fd), fd, k)) && Agrees(p.Abs(), Tallied(counts, k), socks)
    modifies p
    ensures p.Valid() && Holds(p.Abs(), Keys(after)) && Agrees(p.Abs(), after, socks)
    ensures after == Tallied(counts, k) && Settled(old(p.trace), p.trace, k, k in counts, others)
  {
    after := Tallied(counts, k);
    KeysAfter(counts, fd, k);
    if k in counts {
      ghost var start := p.Abs();
      p.ReleaseRef(k, Gain(Arriving(counts, fd), fd, k), others);
      AgreesKept(start, p.trace, after, socks, Keys(after));
    }
  }

  /** The descriptor was received and turned into a `Ref` to `k`; nothing else happened but what others
      were asked to do. */
  predicate Received(from: seq<Event>, to: seq<Event>, fd: Fd, k: InnerId, others: seq<Event>) {
    Interns(After(INITIAL, from + [Receive(fd)]), from + [Receive(fd)], to, fd, true, k, others)
  }

  /** A `Ref` to a key there was has been dropped; to a new one, kept. */
  predicate Settled(from: seq<Event>, to: seq<Event>, k: InnerId, known: bool, others: seq<Event>) {
    if known then Ran({Unfile(k), CloseInner(k)}, others, from + [DropRef(k)], to) else to == from
  }

  /** How one arrival was dealt with: what had been tallied before, the run after which it was looked at,
      the key it was recognised as and by which run, and the run by which it was settled. */
  datatype Look = Look(kept: map<InnerId, nat>, moment: seq<Event>, key: InnerId, recognised: seq<Event>, done: seq<Event>)

  /** What others do before an arrival is looked at, while it is recognised, and while it is settled. */
  type Interference = (nat, nat) -> seq<Event>

  /** The socket a descriptor in flight names, after the run so far; nothing if it is not in flight. */
  function SockAt(es: seq<Event>, fd: Fd): seq<Sock> {
    var s := After(INITIAL, es);
    if fd in s.fds && s.fds[fd].role.InFlight? then [s.fds[fd].sock] else []
  }

  /** After the run `from` others did what they were asked to, and then the arrival was looked at; if it
      was in flight it was received, recognised and settled, and otherwise left alone. */
  predicate LookedAt(from: seq<Event>, look: Look, fd: Fd, env: Interference, i: nat) {
    && look.moment == from + Theirs(After(INITIAL, from), Keys(look.kept), env(i, 0))
    && if SockAt(look.moment, fd) == [] then look.done == look.moment
       else Received(look.moment, look.recognised, fd, look.key, env(i, 1))
            && Settled(look.recognised, look.done, look.key, look.key in look.kept, env(i, 2))
  }

  function KeptAfter(look: Look, fd: Fd): map<InnerId, nat> {
    if SockAt(look.moment, fd) == [] then look.kept else Tallied(look.kept, look.key)
  }

  /** The run, and the tally, by which the first `i` arrivals had been dealt with. */
  function DoneBy(start: seq<Event>, log: seq<Look>, i: nat): seq<Event>
    requires i <= |log|
  {
    if i == 0 then start else log[i - 1].done
  }

  function KeptBy(log: seq<Look>, arrivals: seq<Fd>, i: nat): map<InnerId, nat>
    requires i <= |log| <= |arrivals|
  {
    if i == 0 then map[] else KeptAfter(log[i - 1], arrivals[i - 1])
  }

  predicate FollowedAt(start: seq<Event>, log: seq<Look>, arrivals: seq<Fd>, env: Interference, i: nat)
    requires i < |log| <= |arrivals|
  {
    LookedAt(DoneBy(start, log, i), log[i], arrivals[i], env, i) && log[i].kept == KeptBy(log, arrivals, i)
  }

  /** Since the run `start` the arrivals were dealt with one straight after the other. */
  predicate Followed(start: seq<Event>, log: seq<Look>, arrivals: seq<Fd>, env: Interference) {
    |log| <= |arrivals| && forall i :: 0 <= i < |log| ==> FollowedAt(start, log, arrivals, env, i)
  }

  lemma SameSoFar(start: seq<Event>, log: seq<Look>, arrivals: seq<Fd>, look: Look, i: nat)
    requires i <= |log| < |arrivals|
    ensures DoneBy(start, log + [look], i) == DoneBy(start, log, i)
    ensures KeptBy(log + [look], arrivals, i) == KeptBy(log, arrivals, i)
    ensures i < |log| ==> (log + [look])[i] == log[i]
  {
  }

  lemma FollowedStill(start: seq<Event>, log: seq<Look>, arrivals: seq<Fd>, env: Interference, look: Look, i: nat)
    requires i < |log| < |arrivals| && FollowedAt(start, log, arrivals, env, i)
    ensures FollowedAt(start, log + [look], arrivals, env, i)
  {
    SameSoFar(start, log, arrivals, look, i);
  }

  lemma FollowedLast(start: seq<Event>, log: seq<Look>, arrivals: seq<Fd>, env: Interference, look: Look)
    requires |log| < |arrivals| && LookedAt(DoneBy(start, log, |log|), look, arrivals[|log|], env, |log|)
    requires look.kept == KeptBy(log, arrivals, |log|)
    ensures FollowedAt(start, log + [look], arrivals, env, |log|)
  {
    SameSoFar(start, log, arrivals, look, |log|);
    assert (log + [look])[|log|] == look;
  }

  lemma FollowedOn(start: seq<Event>, log: seq<Look>, arrivals: seq<Fd>, env: Interference, look: Look)
    requires Followed(start, log, arrivals, env) && |log| < |arrivals|
    requires LookedAt(DoneBy(start, log, |log|), look, arrivals[|log|], env, |log|)
    requires look.kept == KeptBy(log, arrivals, |log|)
    ensures Followed(start, log + [look], arrivals, env)
  {
    forall i | 0 <= i < |log + [look]|
      ensures FollowedAt(start, log + [look], arrivals, env, i)
    {
      if i < |log| {
        FollowedStill(start, log, arrivals, env, look, i);
      } else {
        FollowedLast(start, log, arrivals, env, look);
      }
    }
  }

  /** The sockets that arrived. */
  function Landed(log: seq<Look>, arrivals: seq<Fd>): seq<Sock>
    requires |log| == |arrivals|
  {
    if log == [] then []
    else
      var n := |log| - 1;
      Landed(log[..n], arrivals[..n]) + SockAt(log[n].moment, arrivals[n])
  }

  lemma LandedSnoc(log: seq<Look>, arrivals: seq<Fd>, look: Look, i: nat)
    requires |log| == i < |arrivals|
    ensures Landed(log + [look], arrivals[..i + 1]) == Landed(log, arrivals[..i]) + SockAt(look.moment, arrivals[i])
  {
    assert (log + [look])[..i] == log && arrivals[..i + 1][..i] == arrivals[..i];
  }

  lemma LookTaken(from: seq<Event>, look: Look, fd: Fd, env: Interference, i: nat)
    requires look.moment == from + Theirs(After(INITIAL, from), Keys(look.kept), env(i, 0))
    requires var s := After(INITIAL, look.moment); fd in s.fds && s.fds[fd].role.InFlight?
    requires Received(look.moment, look.recognised, fd, look.key, env(i, 1))
    requires Settled(look.recognised, look.done, look.key, look.key in look.kept, env(i, 2))
    ensures LookedAt(from, look, fd, env, i) && KeptAfter(look, fd) == Tallied(look.kept, look.key)
    ensures SockAt(look.moment, fd) == [After(INITIAL, look.moment).fds[fd].sock]
  {
  }

  lemma LookPassed(from: seq<Event>, look: Look, fd: Fd, env: Interference, i: nat)
    requires look.moment == from + Theirs(After(INITIAL, from), Keys(look.kept), env(i, 0)) == look.done
    requires var s := After(INITIAL, look.moment); !(fd in s.fds && s.fds[fd].role.InFlight?)
    ensures LookedAt(from, look, fd, env, i) && KeptAfter(look, fd) == look.kept && SockAt(look.moment, fd) == []
  {
  }

  // ---- With nobody else about ----

  ghost predicate Silent(env: Interference) {
    forall i: nat, j: nat :: env(i, j) == []
  }

  predicate Flying(s: State, fd: Fd) {
    fd in s.fds && s.fds[fd].role.InFlight?
  }

  /** A descriptor in flight stays in flight until it is received or closed. */
  lemma FlyingStep(s: State, e: Event, fd: Fd)
    requires Ownership(s) && Flying(s, fd) && e != Receive(fd) && e != Close(fd)
    ensures Flying(Step(s, e), fd) && Step(s, e).fds[fd] == s.fds[fd]
  {
  }

  predicate Spares(from: seq<Event>, to: seq<Event>, fd: Fd) {
    from <= to && forall i :: |from| <= i < |to| ==> to[i] != Receive(fd) && to[i] != Close(fd)
  }

  lemma {:induction false} FlyingThrough(from: seq<Event>, to: seq<Event>, fd: Fd)
    requires Flying(After(INITIAL, from), fd) && Spares(from, to, fd)
    ensures Flying(After(INITIAL, to), fd) && After(INITIAL, to).fds[fd] == After(INITIAL, from).fds[fd]
    decreases |to|
  {
    if |from| < |to| {
      var n := |to| - 1;
      assert to == to[..n] + [to[n]];
      FlyingThrough(from, to[..n], fd);
      AfterSnoc(INITIAL, to[..n], to[n]);
      Reachable(to[..n]);
      FlyingStep(After(INITIAL, to[..n]), to[n], fd);
    } else {
      assert to == from;
    }
  }

  /** Dealing with one arrival leaves the others in flight. */
  lemma LookSpares(from: seq<Event>, look: Look, fd: Fd, env: Interference, i: nat, other: Fd)
    requires LookedAt(from, look, fd, env, i) && Silent(env) && other != fd
    ensures Spares(from, look.done, other) && look.moment == from
  {
    assert env(i, 0) == [] && env(i, 1) == [] && env(i, 2) == [];
    assert from + [] == from;
    if SockAt(look.moment, fd) != [] {
      ReceivedSpares(from, look.recognised, fd, look.key, other);
      SettledSpares(look.recognised, look.done, look.key, look.key in look.kept, other);
    }
  }

  lemma ReceivedSpares(from: seq<Event>, to: seq<Event>, fd: Fd, k: InnerId, other: Fd)
    requires Received(from, to, fd, k, []) && other != fd
    ensures Spares(from, to, other)
  {
  }

  lemma SettledSpares(from: seq<Event>, to: seq<Event>, k: InnerId, known: bool, other: Fd)
    requires Settled(from, to, k, known, [])
    ensures Spares(from, to, other)
  {
  }

  /** Distinct descriptors, all on their way. */
  predicate AllFlying(s: State, arrivals: seq<Fd>) {
    && (forall i :: 0 <= i < |arrivals| ==> Flying(s, arrivals[i]))
    && (forall i, j :: 0 <= i < j < |arrivals| ==> arrivals[i] != arrivals[j])
  }

  /** The sockets they name. */
  function SocksOf(s: State, arrivals: seq<Fd>): seq<Sock>
    requires AllFlying(s, arrivals)
  {
    seq(|arrivals|, i requires 0 <= i < |arrivals| => s.fds[arrivals[i]].sock)
  }

  lemma FollowedSpares(start: seq<Event>, log: seq<Look>, arrivals: seq<Fd>, env: Interference, i: nat, other: Fd)
    requires i < |log| <= |arrivals| && FollowedAt(start, log, arrivals, env, i) && Silent(env) && other != arrivals[i]
    ensures Spares(DoneBy(start, log, i), log[i].done, other)
  {
    LookSpares(DoneBy(start, log, i), log[i], arrivals[i], env, i, other);
  }

  lemma FlyingOver(start: seq<Event>, log: seq<Look>, arrivals: seq<Fd>, env: Interference, i: nat, fd: Fd)
    requires i < |log| <= |arrivals| && FollowedAt(start, log, arrivals, env, i) && Silent(env) && fd != arrivals[i]
    requires Flying(After(INITIAL, DoneBy(start, log, i)), fd)
    ensures DoneBy(start, log, i + 1) == log[i].done
    ensures Flying(After(INITIAL, log[i].done), fd)
    ensures After(INITIAL, log[i].done).fds[fd] == After(INITIAL, DoneBy(start, log, i)).fds[fd]
  {
    FollowedSpares(start, log, arrivals, env, i, fd);
    FlyingThrough(DoneBy(start, log, i), log[i].done, fd);
  }

  lemma {:induction false} StillFlying(start: seq<Event>, log: seq<Look>, arrivals: seq<Fd>, env: Interference, n: nat, fd: Fd)
    requires n <= |log| <= |arrivals| && forall i :: 0 <= i < n ==> FollowedAt(start, log, arrivals, env, i)
    requires Silent(env) && Flying(After(INITIAL, start), fd) && forall i :: 0 <= i < n ==> arrivals[i] != fd
    ensures var s := After(INITIAL, DoneBy(start, log, n));
      Flying(s, fd) && s.fds[fd] == After(INITIAL, start).fds[fd]
    decreases n
  {
    if n > 0 {
      StillFlying(start, log, arrivals, env, n - 1, fd);
      FlyingOver(start, log, arrivals, env, n - 1, fd);
    }
  }

  lemma LandsHere(start: seq<Event>, log: seq<Look>, arrivals: seq<Fd>, env: Interference, i: nat)
    requires i < |log| <= |arrivals| && FollowedAt(start, log, arrivals, env, i) && Silent(env)
    requires Flying(After(INITIAL, DoneBy(start, log, i)), arrivals[i])
    ensures SockAt(log[i].moment, arrivals[i]) == [After(INITIAL, DoneBy(start, log, i)).fds[arrivals[i]].sock]
  {
    assert log[i].moment == DoneBy(start, log, i);
  }

  /** With nobody else about, every arrival that was on its way is tallied. */
  lemma {:induction false} AllLand(start: seq<Event>, log: seq<Look>, arrivals: seq<Fd>, env: Interference, n: nat)
    requires Followed(start, log, arrivals, env) && Silent(env) && AllFlying(After(INITIAL, start), arrivals)
    requires n <= |log| == |arrivals|
    ensures Landed(log[..n], arrivals[..n]) == SocksOf(After(INITIAL, start), arrivals)[..n]
    decreases n
  {
    if n > 0 {
      var i := n - 1;
      AllLand(start, log, arrivals, env, i);
      StillFlying(start, log, arrivals, env, i, arrivals[i]);
      LandsHere(start, log, arrivals, env, i);
      LandedUpTo(log, arrivals, i);
      SocksUpTo(After(INITIAL, start), arrivals, i);
    }
  }

  lemma LandedUpTo(log: seq<Look>, arrivals: seq<Fd>, i: nat)
    requires i < |log| == |arrivals|
    ensures Landed(log[..i + 1], arrivals[..i + 1]) == Landed(log[..i], arrivals[..i]) + SockAt(log[i].moment, arrivals[i])
  {
    assert log[..i + 1] == log[..i] + [log[i]];
    LandedSnoc(log[..i], arrivals, log[i], i);
  }

  lemma SocksUpTo(s: State, arrivals: seq<Fd>, i: nat)
    requires AllFlying(s, arrivals) && i < |arrivals|
    ensures SocksOf(s, arrivals)[..i + 1] == SocksOf(s, arrivals)[..i] + [s.fds[arrivals[i]].sock]
  {
  }

  // ---- The tally ----

  /** Per-peer state kept under the `Ref` each descriptor turns into: a descriptor in flight is
      received, made a `Ref`, and either recognised as a key, and dropped, or kept as a new one. `log` says
      how each arrival was dealt with, and accounts for every step since the start. */
  method Tally(p: Process, arrivals: seq<Fd>, env: Interference)
    returns (counts: map<InnerId, nat>, socks: seq<Sock>, ghost log: seq<Look>)
    requires p.Valid()
    modifies p
    ensures p.Valid() && OneEntryPerSocket(p.Abs(), counts, BySocket(socks))
    ensures |log| == |arrivals| && Followed(old(p.trace), log, arrivals, env)
    ensures p.trace == DoneBy(old(p.trace), log, |log|) && counts == KeptBy(log, arrivals, |log|)
    ensures socks == Landed(log, arrivals)
    ensures Silent(env) && AllFlying(old(p.Abs()), arrivals) ==> socks == SocksOf(old(p.Abs()), arrivals)
  {
    counts, socks, log := map[], [], [];
    for i := 0 to |arrivals|
      invariant p.Valid() && Holds(p.Abs(), Keys(counts)) && Agrees(p.Abs(), counts, socks)
      invariant |log| == i && InStep(old(p.trace), p.trace, log, arrivals, env, counts, socks)
    {
      counts, socks, log := TallyInStep(p, arrivals, i, counts, socks, env, old(p.trace), log);
    }
    assert arrivals[..|arrivals|] == arrivals;
    AgreementIsOneToOne(p.trace, counts, socks);
    if Silent(env) && AllFlying(old(p.Abs()), arrivals) {
      EveryoneLands(old(p.trace), log, arrivals, env);
    }
  }

  lemma EveryoneLands(start: seq<Event>, log: seq<Look>, arrivals: seq<Fd>, env: Interference)
    requires Followed(start, log, arrivals, env) && Silent(env) && AllFlying(After(INITIAL, start), arrivals)
    requires |log| == |arrivals|
    ensures Landed(log, arrivals) == SocksOf(After(INITIAL, start), arrivals)
  {
    AllLand(start, log, arrivals, env, |log|);
    assert log[..|log|] == log && arrivals[..|log|] == arrivals;
    assert SocksOf(After(INITIAL, start), arrivals)[..|log|] == SocksOf(After(INITIAL, start), arrivals);
  }

  /** The log, the tally and the run so far agree. */
  predicate InStep(start: seq<Event>, now: seq<Event>, log: seq<Look>, arrivals: seq<Fd>, env: Interference,
                   counts: map<InnerId, nat>, socks: seq<Sock>)
  {
    && Followed(start, log, arrivals, env) && socks == Landed(log, arrivals[..|log|])
    && now == DoneBy(start, log, |log|) && counts == KeptBy(log, arrivals, |log|)
  }

  lemma InStepOn(start: seq<Event>, before: seq<Event>, log: seq<Look>, arrivals: seq<Fd>, env: Interference,
                 counts: map<InnerId, nat>, socks: seq<Sock>, look: Look)
    requires InStep(start, before, log, arrivals, env, counts, socks) && |log| < |arrivals|
    requires LookedAt(before, look, arrivals[|log|], env, |log|) && look.kept == counts
    ensures var fd := arrivals[|log|];
      InStep(start, look.done, log + [look], arrivals, env, KeptAfter(look, fd), socks + SockAt(look.moment, fd))
  {
    FollowedOn(start, log, arrivals, env, look);
    LandedSnoc(log, arrivals, look, |log|);
  }

  method TallyInStep(p: Process, arrivals: seq<Fd>, i: nat, counts: map<InnerId, nat>, socks: seq<Sock>, env: Interference,
                     ghost start: seq<Event>, ghost log: seq<Look>)
    returns (after: map<InnerId, nat>, landed: seq<Sock>, ghost longer: seq<Look>)
    requires p.Valid() && Holds(p.Abs(), Keys(counts)) && Agrees(p.Abs(), counts, socks)
    requires |log| == i < |arrivals| && InStep(start, p.trace, log, arrivals, env, counts, socks)
    modifies p
    ensures p.Valid() && Holds(p.Abs(), Keys(after)) && Agrees(p.Abs(), after, landed)
    ensures |longer| == |log| + 1 && InStep(start, p.trace, longer, arrivals, env, after, landed)
  {
    ghost var before := p.trace;
    ghost var look;
    after, landed, look := TallyNext(p, arrivals[i], counts, socks, env, i);
    InStepOn(start, before, log, arrivals, env, counts, socks, look);
    longer := log + [look];
  }

  /** What others do meanwhile leaves the map right. */
  method LetOthersRun(p: Process, counts: map<InnerId, nat>, ghost socks: seq<Sock>, others: seq<Event>)
    requires p.Valid() && Holds(p.Abs(), Keys(counts)) && Agrees(p.Abs(), counts, socks)
    modifies p
    ensures p.Valid() && Holds(p.Abs(), Keys(counts)) && Agrees(p.Abs(), counts, socks)
    ensures p.trace == old(p.trace) + Theirs(After(INITIAL, old(p.trace)), Keys(counts), others)
  {
    ghost var start := p.Abs();
    p.Interfere(Keys(counts), others);
    AgreesKept(start, p.trace, counts, socks, Keys(counts));
  }

  /** Some time later, the next arrival is looked at, and tallied if it is there. */
  method TallyNext(p: Process, fd: Fd, counts: map<InnerId, nat>, socks: seq<Sock>, env: Interference, i: nat)
    returns (after: map<InnerId, nat>, landed: seq<Sock>, ghost look: Look)
    requires p.Valid() && Holds(p.Abs(), Keys(counts)) && Agrees(p.Abs(), counts, socks)
    modifies p
    ensures p.Valid() && Holds(p.Abs(), Keys(after)) && Agrees(p.Abs(), after, landed)
    ensures LookedAt(old(p.trace), look, fd, env, i) && look.kept == counts && look.done == p.trace
    ensures landed == socks + SockAt(look.moment, fd) && after == KeptAfter(look, fd)
  {
    ghost var from := p.trace;
    LetOthersRun(p, counts, socks, env(i, 0));
    after, landed, look := TallyIfThere(p, fd, counts, socks, env, i, from);
  }

  method TallyIfThere(p: Process, fd: Fd, counts: map<InnerId, nat>, socks: seq<Sock>, env: Interference, i: nat,
                      ghost from: seq<Event>)
    returns (after: map<InnerId, nat>, landed: seq<Sock>, ghost look: Look)
    requires p.Valid() && Holds(p.Abs(), Keys(counts)) && Agrees(p.Abs(), counts, socks)
    requires p.trace == from + Theirs(After(INITIAL, from), Keys(counts), env(i, 0))
    modifies p
    ensures p.Valid() && Holds(p.Abs(), Keys(after)) && Agrees(p.Abs(), after, landed)
    ensures LookedAt(from, look, fd, env, i) && look.kept == counts && look.done == p.trace
    ensures landed == socks + SockAt(look.moment, fd) && after == KeptAfter(look, fd)
  {
    ghost var moment := p.trace;
    if fd !in p.fds || !p.fds[fd].role.InFlight? {
      after, landed, look := counts, socks, Look(counts, moment, 0, moment, moment);
      LookPassed(from, look, fd, env, i);
      assert socks + [] == socks;
      return;
    }
    landed := socks + [p.fds[fd].sock];
    ghost var key, recognised;
    after, key, recognised := TallyOne(p, fd, counts, socks, env(i, 1), env(i, 2));
    look := Look(counts, moment, key, recognised, p.trace);
    LookTaken(from, look, fd, env, i);
  }

  /** The descriptor in flight becomes a `Ref`, and is tallied under the key that is. */
  method TallyOne(p: Process, fd: Fd, counts: map<InnerId, nat>, ghost socks: seq<Sock>, during: seq<Event>, later: seq<Event>)
    returns (after: map<InnerId, nat>, ghost key: InnerId, ghost recognised: seq<Event>)
    requires p.Valid() && Holds(p.Abs(), Keys(counts)) && Agrees(p.Abs(), counts, socks)
    requires fd in p.fds && p.fds[fd].role.InFlight?
    modifies p
    ensures p.Valid() && Holds(p.Abs(), Keys(after)) && Agrees(p.Abs(), after, socks + [old(p.fds)[fd].sock])
    ensures after == Tallied(counts, key)
    ensures Received(old(p.trace), recognised, fd, key, during)
    ensures Settled(recognised, p.trace, key, key in counts, later)
  {
    ghost var landed := socks + [p.fds[fd].sock];
    var k := Recognise(p, fd, counts, socks, during);
    key, recognised := k, p.trace;
    after := Settle(p, fd, k, counts, landed, later);
  }
}
