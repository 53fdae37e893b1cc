/** Interning and dropping capabilities as the code runs them, with arbitrary interference, and a
    map keyed by `Ref` as a holder would keep it. */
module CapabilityCode {
  import opened Wire
  import opened Capabilities
  import opened CapabilityInvariant
  import RefCounts

  /** What a holder has in hand: so many strong references to each `RefInner`, descriptors, and
      `RefInner`s whose `drop` it is running. */
  datatype Mine = Mine(refs: map<InnerId, nat>, fds: set<Fd>, dying: set<InnerId>)

  /** What others cannot do: drop strong references or close descriptors that are not theirs. */
  predicate Foreign(s: State, mine: Mine, e: Event) {
    match e
    case Close(fd) => fd !in mine.fds
    case Intern(fd, _) => fd !in mine.fds
    case InternUnfiled(fd, _) => fd !in mine.fds
    case DropRef(k) => k in mine.refs && k in s.inners ==> s.inners[k].strong > mine.refs[k]
    case Unfile(k) => k !in mine.dying
    case CloseInner(k) => k !in mine.dying
    case _ => true
  }

  /** The holder's references and descriptors are there. */
  predicate Holds(s: State, mine: Mine) {
    && (forall k :: k in mine.refs ==> mine.refs[k] > 0 && k in s.inners && s.inners[k].strong >= mine.refs[k])
    && (forall fd :: fd in mine.fds ==> LooseAt(s, fd))
    && (forall k :: k in mine.dying ==> k in s.inners && (s.inners[k].phase.Unfiling? || s.inners[k].phase.Closing?))
  }

  /** And they still lead to the same sockets. */
  ghost predicate SameHoldings(s: State, t: State, mine: Mine) {
    && Holds(t, mine)
    && (forall k, sock :: k in mine.refs && SendsOn(s, k, sock) ==> SendsOn(t, k, sock))
    && (forall k :: k in mine.refs && k in s.inners && k in t.inners ==> t.inners[k].id == s.inners[k].id)
    && (forall fd :: fd in mine.fds && fd in s.fds ==> fd in t.fds && t.fds[fd] == s.fds[fd])
    && (forall k :: k in mine.dying && k in s.inners && k in t.inners ==> t.inners[k] == s.inners[k])
  }

  /** The steps among these that others can take, one after the other. */
  function Theirs(s: State, mine: Mine, es: seq<Event>): seq<Event>
    decreases |es|
  {
    if es == [] then []
    else
      var n := |es| - 1;
      var before := Theirs(s, mine, es[..n]);
      before + (if Foreign(After(s, before), mine, es[n]) then [es[n]] else [])
  }

  lemma TheirsSnoc(s: State, mine: Mine, es: seq<Event>, i: nat)
    requires i < |es|
    ensures var before := Theirs(s, mine, es[..i]);
      Theirs(s, mine, es[..i + 1]) == before + (if Foreign(After(s, before), mine, es[i]) then [es[i]] else [])
  {
    assert es[..i + 1][..i] == es[..i];
  }

  lemma {:induction false} TheirsAreAsked(s: State, mine: Mine, es: seq<Event>, e: Event)
    requires e in Theirs(s, mine, es)
    ensures e in es
    decreases |es|
  {
    var n := |es| - 1;
    if e in Theirs(s, mine, es[..n]) {
      TheirsAreAsked(s, mine, es[..n], e);
    }
  }

  /** Since `from`, nothing has happened but some of these steps and what others were asked to do. */
  predicate Ran(own: set<Event>, others: seq<Event>, from: seq<Event>, to: seq<Event>) {
    from <= to && forall i :: |from| <= i < |to| ==> to[i] in own || to[i] in others
  }

  lemma RanOthers(own: set<Event>, others: seq<Event>, from: seq<Event>, s: State, mine: Mine)
    ensures Ran(own, others, from, from + Theirs(s, mine, others))
  {
    forall i | 0 <= i < |Theirs(s, mine, others)|
      ensures Theirs(s, mine, others)[i] in others
    {
      TheirsAreAsked(s, mine, others, Theirs(s, mine, others)[i]);
    }
  }

  lemma RanJoin(own: set<Event>, others: seq<Event>, from: seq<Event>, mid: seq<Event>, to: seq<Event>)
    requires Ran(own, others, from, mid) && Ran(own, others, mid, to)
    ensures Ran(own, others, from, to)
  {
  }

  /** One more reference to a `RefInner` there was, and the descriptor closed. */
  predicate Shared(s: State, t: State, fd: Fd, k: InnerId) {
    && k in s.inners && t.inners == s.inners[k := s.inners[k].(strong := s.inners[k].strong + 1)]
    && t.fds == s.fds - {fd} && t.refs == s.refs && t.ids == s.ids
  }

  /** A new `RefInner` with one reference to it and the descriptor its own, filed if it has an identity. */
  predicate Fresh(s: State, t: State, fd: Fd, k: InnerId, id: Option<SocketId>) {
    && k !in s.inners && t.inners == s.inners[k := Inner(fd, id, 1, Live)]
    && fd in s.fds && t.fds == s.fds[fd := Desc(s.fds[fd].sock, Owned(k))]
    && t.refs == (if id.Some? then s.refs[id.value := k] else s.refs) && t.ids == s.ids
  }

  /** One reference fewer. */
  predicate Released(s: State, t: State, k: InnerId) {
    && k in s.inners && s.inners[k].strong > 0
    && t == s.(inners := s.inners[k := s.inners[k].(strong := s.inners[k].strong - 1)])
  }

  /** No reference left, no descriptor, and no entry. */
  predicate Dismantled(s: State, t: State, k: InnerId) {
    && k in s.inners && t.inners == s.inners[k := s.inners[k].(strong := 0, phase := Gone)]
    && t.fds == s.fds - {s.inners[k].fd} && t.ids == s.ids
    && Unentered(s, t, k)
  }

  /** The entries that lead to `k` are gone, and no other. */
  predicate Unentered(s: State, t: State, k: InnerId) {
    && (forall id :: id in t.refs ==> id in s.refs && s.refs[id] != k)
    && (forall id :: id in s.refs && s.refs[id] != k ==> id in t.refs)
    && (forall id :: id in t.refs ==> t.refs[id] == s.refs[id])
  }

  /** It has no reference left, and if it has yet to unfile itself the entry is its own. */
  predicate Entered(s: State, k: InnerId) {
    && k in s.inners && s.inners[k].strong == 0 && (s.inners[k].phase.Unfiling? || s.inners[k].phase.Closing?)
    && (s.inners[k].phase.Unfiling? ==>
          s.inners[k].id.Some? && s.inners[k].id.value in s.refs && s.refs[s.inners[k].id.value] == k)
    && (s.inners[k].phase.Closing? ==> forall id :: id in s.refs ==> s.refs[id] != k)
  }

  /** Its entry is gone, and nothing else. */
  predicate EntryGone(s: State, t: State, k: InnerId) {
    && k in s.inners && t.inners == s.inners[k := s.inners[k].(phase := Closing)]
    && t.fds == s.fds && t.ids == s.ids && Unentered(s, t, k)
  }

  lemma UnfiledAlone(s: State, k: InnerId)
    requires Registry(s) && Entered(s, k) && s.inners[k].phase.Unfiling?
    ensures EntryGone(s, Unfiled(s, k), k)
  {
  }

  lemma DismantledInTwo(s: State, mid: State, t: State, k: InnerId)
    requires Entered(s, k) && EntryGone(s, mid, k)
    requires t.inners == mid.inners[k := mid.inners[k].(phase := Gone)] && t.fds == mid.fds - {mid.inners[k].fd}
    requires t.ids == mid.ids && t.refs == mid.refs
    ensures Dismantled(s, t, k)
  {
  }

  /** Dropping the last reference to a `RefInner` leaves its own entry behind, if it has one. */
  lemma LastLeavesEntry(s: State, k: InnerId)
    requires Registry(s) && Alive(s, k) && s.inners[k].strong == 1
    ensures Entered(Dropped(s, k), k)
  {
    assert Owns(s, k);
  }

  /** And then the rest of it goes. */
  lemma DismantledFromLast(s: State, t: State, k: InnerId)
    requires Alive(s, k) && s.inners[k].strong == 1 && Dismantled(Dropped(s, k), t, k)
    ensures Dismantled(s, t, k)
  {
  }

  /** The descriptor was looked up once, which is where `k` came from; since then nothing has happened
      but its being closed and what others were asked to do. */
  predicate Interns(s: State, from: seq<Event>, to: seq<Event>, fd: Fd, identified: bool, k: InnerId, others: seq<Event>) {
    && |from| < |to| && from <= to
    && var e := to[|from|];
    && (if identified then e.Intern? && e.fd == fd && e.inner !in s.inners else e == InternUnfiled(fd, k))
    && RefCounts.HandsOut(s, e) == Some(k)
    && Ran({Close(fd)}, others, from + [e], to)
  }

  lemma InternsOnce(s: State, from: seq<Event>, fd: Fd, spare: InnerId, k: InnerId)
    requires LooseAt(s, fd) && spare !in s.inners
    requires var hit := Recognised(s, s.ids[s.fds[fd].sock]); k == if hit.Some? then hit.value else spare
    ensures Interns(s, from, from + [Intern(fd, spare)], fd, true, k, [])
  {
    assert from + [Intern(fd, spare)] == from + [(from + [Intern(fd, spare)])[|from|]];
  }

  /** With nobody else about: recognised, and one reference more to the `RefInner` there was; or a new
      one. */
  predicate Arrived(s: State, t: State, fd: Fd, identified: bool, k: InnerId)
    requires LooseAt(s, fd)
  {
    if !identified then Fresh(s, t, fd, k, None)
    else
      var id := s.ids[s.fds[fd].sock];
      if id in s.refs && Alive(s, s.refs[id]) then k == s.refs[id] && Shared(s, t, fd, k) else Fresh(s, t, fd, k, Some(id))
  }

  lemma ForeignStep(s: State, mine: Mine, e: Event)
    requires Inv(s) && Holds(s, mine) && Foreign(s, mine, e)
    ensures SameHoldings(s, Step(s, e), mine)
  {
    HandsKept(s, mine, e);
    SocketsKept(s, mine, e);
  }

  /** References, descriptors and drops in hand stay as they are. */
  lemma HandsKept(s: State, mine: Mine, e: Event)
    requires Ownership(s) && Holds(s, mine) && Foreign(s, mine, e)
    ensures Holds(Step(s, e), mine)
    ensures forall k :: k in mine.refs ==> Step(s, e).inners[k].id == s.inners[k].id
    ensures forall fd :: fd in mine.fds ==> Step(s, e).fds[fd] == s.fds[fd]
    ensures forall k :: k in mine.dying ==> Step(s, e).inners[k] == s.inners[k]
  {
    var t := Step(s, e);
    forall k | k in mine.refs
      ensures k in t.inners && t.inners[k].strong >= mine.refs[k] && t.inners[k].id == s.inners[k].id
    {
      StrongKept(s, mine, e, k);
    }
    forall fd | fd in mine.fds
      ensures LooseAt(t, fd) && t.fds[fd] == s.fds[fd]
    {
      DescriptorKept(s, mine, e, fd);
    }
    forall k | k in mine.dying
      ensures k in t.inners && t.inners[k] == s.inners[k]
    {
      DyingKept(s, mine, e, k);
    }
  }

  lemma SocketsKept(s: State, mine: Mine, e: Event)
    requires Inv(s) && Holds(Step(s, e), mine)
    ensures forall k, sock :: k in mine.refs && SendsOn(s, k, sock) ==> SendsOn(Step(s, e), k, sock)
  {
    forall k, sock | k in mine.refs && SendsOn(s, k, sock)
      ensures SendsOn(Step(s, e), k, sock)
    {
      InvStep(s, e);
      assert Owns(Step(s, e), k);
      SameSocket(s, e, k, sock);
    }
  }

  lemma StrongKept(s: State, mine: Mine, e: Event, k: InnerId)
    requires Holds(s, mine) && Foreign(s, mine, e) && k in mine.refs
    ensures var t := Step(s, e); k in t.inners && t.inners[k].strong >= mine.refs[k] && t.inners[k].id == s.inners[k].id
  {
  }

  lemma DescriptorKept(s: State, mine: Mine, e: Event, fd: Fd)
    requires Ownership(s) && Holds(s, mine) && Foreign(s, mine, e) && fd in mine.fds
    ensures var t := Step(s, e); LooseAt(t, fd) && t.fds[fd] == s.fds[fd]
  {
  }

  lemma DyingKept(s: State, mine: Mine, e: Event, k: InnerId)
    requires Ownership(s) && Holds(s, mine) && Foreign(s, mine, e) && k in mine.dying
    ensures var t := Step(s, e); k in t.inners && t.inners[k] == s.inners[k]
  {
  }

  lemma SameTrans(s: State, t: State, u: State, mine: Mine)
    requires SameHoldings(s, t, mine) && SameHoldings(t, u, mine) && Holds(s, mine)
    ensures SameHoldings(s, u, mine)
  {
  }

  /** A reference in hand stays alive and filed. */
  lemma StillLive(es: seq<Event>, s: State, k: InnerId, mine: Mine)
    requires k in mine.refs && k in s.inners && s.inners[k].id.Some?
    requires SameHoldings(s, After(INITIAL, es), mine)
    ensures LiveFiled(After(INITIAL, es), k)
  {
    Reachable(es);
    assert Owns(After(INITIAL, es), k);
  }

  function Without(mine: Mine, fd: Fd): Mine {
    mine.(fds := mine.fds - {fd})
  }

  /** A descriptor traded for a strong reference. */
  function Gain(mine: Mine, fd: Fd, k: InnerId): Mine {
    Without(mine, fd).(refs := mine.refs[k := (if k in mine.refs then mine.refs[k] else 0) + 1])
  }

  /** Is `b` part of `a`? */
  predicate PartOf(b: Mine, a: Mine) {
    && (forall k :: k in b.refs ==> k in a.refs && 0 < b.refs[k] <= a.refs[k])
    && b.fds <= a.fds && b.dying <= a.dying
  }

  lemma PartIsSame(s: State, t: State, a: Mine, b: Mine)
    requires PartOf(b, a) && SameHoldings(s, t, a)
    ensures SameHoldings(s, t, b)
  {
  }

  /** Interning trades a descriptor for a strong reference, and disturbs nothing else in hand. */
  lemma InternHoldings(s: State, t: State, fd: Fd, spare: InnerId, k: InnerId, mine: Mine)
    requires Inv(s) && Holds(s, mine) && fd in mine.fds && spare !in s.inners
    requires t == Interned(s, fd, spare)
    requires var hit := Recognised(s, s.ids[s.fds[fd].sock]); k == if hit.Some? then hit.value else spare
    ensures SameHoldings(s, t, Without(mine, fd)) && Holds(t, Gain(mine, fd, k))
    ensures k != spare ==> LooseAt(t, fd) && t.fds[fd] == s.fds[fd]
    ensures LiveFiled(t, k) && SendsOn(t, k, s.fds[fd].sock)
  {
    if Recognised(s, s.ids[s.fds[fd].sock]).Some? {
      HitHoldings(s, fd, k, mine);
    } else {
      MissHoldings(s, fd, spare, mine);
    }
  }

  lemma HitHoldings(s: State, fd: Fd, k: InnerId, mine: Mine)
    requires Inv(s) && Holds(s, mine) && fd in mine.fds
    requires Recognised(s, s.ids[s.fds[fd].sock]) == Some(k)
    ensures var t := PutInner(s, k, s.inners[k].(strong := s.inners[k].strong + 1));
      && SameHoldings(s, t, Without(mine, fd)) && Holds(t, Gain(mine, fd, k))
      && LooseAt(t, fd) && t.fds[fd] == s.fds[fd] && LiveFiled(t, k) && SendsOn(t, k, s.fds[fd].sock)
  {
    HitSendsThere(s, fd);
    assert Owns(s, k) && LiveFiled(s, k);
    HitKeeps(s, fd, k, mine);
  }

  lemma HitKeeps(s: State, fd: Fd, k: InnerId, mine: Mine)
    requires Holds(s, mine) && Alive(s, k) && s.inners[k].phase.Live?
    ensures var t := PutInner(s, k, s.inners[k].(strong := s.inners[k].strong + 1));
      && SameHoldings(s, t, mine) && Holds(t, Gain(mine, fd, k))
  {
  }

  lemma MissHoldings(s: State, fd: Fd, k: InnerId, mine: Mine)
    requires Inv(s) && Holds(s, mine) && fd in mine.fds && k !in s.inners
    requires Recognised(s, s.ids[s.fds[fd].sock]) == None
    ensures var t := Interned(s, fd, k);
      && SameHoldings(s, t, Without(mine, fd)) && Holds(t, Gain(mine, fd, k))
      && LiveFiled(t, k) && SendsOn(t, k, s.fds[fd].sock)
  {
    MissKeeps(s, fd, k, mine);
    MissGains(s, fd, k, mine);
  }

  lemma MissGains(s: State, fd: Fd, k: InnerId, mine: Mine)
    requires Holds(s, mine) && fd in mine.fds && k !in s.inners
    requires Recognised(s, s.ids[s.fds[fd].sock]) == None && Holds(Interned(s, fd, k), Without(mine, fd))
    ensures Holds(Interned(s, fd, k), Gain(mine, fd, k))
    ensures LiveFiled(Interned(s, fd, k), k) && SendsOn(Interned(s, fd, k), k, s.fds[fd].sock)
  {
  }

  lemma MissKeeps(s: State, fd: Fd, k: InnerId, mine: Mine)
    requires Registry(s) && Holds(s, mine) && fd in mine.fds && k !in s.inners
    requires Recognised(s, s.ids[s.fds[fd].sock]) == None
    ensures SameHoldings(s, Interned(s, fd, k), Without(mine, fd))
  {
  }

  lemma UnfiledHoldings(s: State, fd: Fd, k: InnerId, mine: Mine)
    requires Ownership(s) && Holds(s, mine) && fd in mine.fds && k !in s.inners
    ensures var t := Adopt(s, fd, k, None);
      SameHoldings(s, t, Without(mine, fd)) && Holds(t, Gain(mine, fd, k)) && SendsOn(t, k, s.fds[fd].sock)
  {
    var t := Adopt(s, fd, k, None);
    forall j, sock | j in mine.refs && SendsOn(s, j, sock)
      ensures SendsOn(t, j, sock)
    {
      assert s.inners[j].fd != fd;
    }
  }

  /** Closing a descriptor of one's own disturbs nothing else in hand. */
  lemma CloseHoldings(s: State, fd: Fd, mine: Mine)
    requires Ownership(s) && Holds(s, mine) && LooseAt(s, fd) && fd !in mine.fds && IsOpen(s, s.fds[fd].sock)
    ensures SameHoldings(s, Closed(s, fd), mine)
  {
  }

  /** One strong reference fewer in hand. */
  function Lose(mine: Mine, k: InnerId): Mine
    requires k in mine.refs
  {
    mine.(refs := if mine.refs[k] > 1 then mine.refs[k := mine.refs[k] - 1] else mine.refs - {k})
  }

  /** A `drop` under way. */
  function WithDying(mine: Mine, k: InnerId): Mine {
    mine.(dying := mine.dying + {k})
  }

  lemma DropHoldings(s: State, k: InnerId, mine: Mine)
    requires Ownership(s) && Holds(s, mine) && k in mine.refs
    ensures SameHoldings(s, Dropped(s, k), Lose(mine, k))
    ensures s.inners[k].strong == 1 ==> Holds(Dropped(s, k), WithDying(Lose(mine, k), k))
    ensures s.inners[k].strong > 1 ==> Dropped(s, k).refs == s.refs && Alive(Dropped(s, k), k)
  {
  }

  lemma UnfileHoldings(s: State, k: InnerId, mine: Mine)
    requires Ownership(s) && Holds(s, mine) && k in s.inners && s.inners[k].phase.Unfiling? && s.inners[k].id.Some?
    requires k !in mine.dying
    ensures SameHoldings(s, Unfiled(s, k), mine)
  {
  }

  lemma CloseInnerHoldings(s: State, k: InnerId, mine: Mine)
    requires Ownership(s) && Holds(s, mine) && Enabled(s, CloseInner(k)) && k !in mine.dying
    ensures SameHoldings(s, Apply(s, CloseInner(k)), mine)
  {
    assert Owns(s, k);
    var t := Apply(s, CloseInner(k));
    forall j, sock | j in mine.refs && SendsOn(s, j, sock)
      ensures SendsOn(t, j, sock)
    {
      assert Owns(s, j);
    }
  }

  /** There is always an identity for one more `RefInner`. */
  lemma Bounded(keys: set<InnerId>) returns (n: InnerId)
    ensures forall k :: k in keys ==> k < n
  {
    if keys == {} {
      n := 0;
    } else {
      var k :| k in keys;
      var m := Bounded(keys - {k});
      n := if k < m then m else k + 1;
      assert forall j :: j in keys && j != k ==> j in keys - {k};
    }
  }

  lemma EntriesHaveInners(es: seq<Event>)
    ensures forall id :: id in After(INITIAL, es).refs ==> After(INITIAL, es).refs[id] in After(INITIAL, es).inners
  {
    Reachable(es);
  }

  /** The process: its descriptors, its `RefInner`s and `REFS`. */
  class Process {
    var fds: map<Fd, Desc>
    var open: map<Sock, nat>
    var ids: map<Sock, SocketId>
    var inners: map<InnerId, Inner>
    var refs: map<SocketId, InnerId>
    ghost var trace: seq<Event>

    function Abs(): State
      reads this
    {
      State(fds, open, ids, inners, refs)
    }

    ghost predicate Valid()
      reads this
    {
      Abs() == After(INITIAL, trace)
    }

    constructor ()
      ensures Valid() && Abs() == INITIAL
    {
      fds, open, ids, inners, refs, trace := map[], map[], map[], map[], map[], [];
    }

    ghost method Record(e: Event, before: State)
      requires before == After(INITIAL, trace) && Enabled(before, e) && Abs() == Apply(before, e)
      modifies this`trace
      ensures Valid() && trace == old(trace) + [e]
    {
      AfterSnoc(INITIAL, trace, e);
      trace := trace + [e];
    }

    method Other(e: Event)
      requires Valid()
      modifies this
      ensures Valid() && trace == old(trace) + [e] && Abs() == Step(old(Abs()), e)
    {
      AfterSnoc(INITIAL, trace, e);
      var s := Step(Abs(), e);
      fds, open, ids, inners, refs := s.fds, s.open, s.ids, s.inners, s.refs;
      trace := trace + [e];
    }

    /** Whatever other holders do that is theirs to do. */
    method Interfere(mine: Mine, others: seq<Event>)
      requires Valid() && Holds(Abs(), mine)
      modifies this
      ensures Valid() && trace == old(trace) + Theirs(old(Abs()), mine, others) && SameHoldings(old(Abs()), Abs(), mine)
      ensures others == [] ==> Abs() == old(Abs())
    {
      ghost var start, from := Abs(), trace;
      assert SameHoldings(start, Abs(), mine);
      for i := 0 to |others|
        invariant Valid() && trace == from + Theirs(start, mine, others[..i]) && SameHoldings(start, Abs(), mine)
        invariant i == 0 ==> Abs() == start
      {
        InterfereOnce(mine, others, i, start, from);
      }
      assert others[..|others|] == others;
    }

    method InterfereOnce(mine: Mine, others: seq<Event>, i: nat, ghost start: State, ghost from: seq<Event>)
      requires Valid() && i < |others| && start == After(INITIAL, from) && Holds(start, mine)
      requires trace == from + Theirs(start, mine, others[..i]) && SameHoldings(start, Abs(), mine)
      modifies this
      ensures Valid() && trace == from + Theirs(start, mine, others[..i + 1]) && SameHoldings(start, Abs(), mine)
    {
      TheirsSnoc(start, mine, others, i);
      AfterConcat(INITIAL, from, Theirs(start, mine, others[..i]));
      ghost var before := Abs();
      OtherIfForeign(mine, others[i]);
      SameTrans(start, before, Abs(), mine);
    }

    /** One step of another holder's, if it is theirs to take. */
    method OtherIfForeign(mine: Mine, e: Event)
      requires Valid() && Holds(Abs(), mine)
      modifies this
      ensures Valid() && trace == old(trace) + (if Foreign(old(Abs()), mine, e) then [e] else [])
      ensures SameHoldings(old(Abs()), Abs(), mine)
    {
      if Foreign(Abs(), mine, e) {
        Reachable(trace);
        ForeignStep(Abs(), mine, e);
        Other(e);
      }
    }

    /** The decision in `from_fd`, under the shard lock. */
    method InternAction(fd: Fd, spare: InnerId) returns (k: InnerId, redundant: bool)
      requires Valid() && LooseAt(Abs(), fd) && spare !in inners
      modifies this
      ensures Valid() && trace == old(trace) + [Intern(fd, spare)] && Abs() == Interned(old(Abs()), fd, spare)
      ensures var hit := Recognised(old(Abs()), old(ids[fds[fd].sock]));
        (redundant <==> hit.Some?) && k == if hit.Some? then hit.value else spare
      ensures redundant ==> k != spare
      ensures if redundant
              then k in old(inners) && inners == old(inners)[k := old(inners)[k].(strong := old(inners)[k].strong + 1)]
                   && fds == old(fds) && open == old(open) && ids == old(ids) && refs == old(refs)
              else Fresh(old(Abs()), Abs(), fd, k, Some(old(ids)[old(fds)[fd].sock]))
    {
      ghost var before := Abs();
      EntriesHaveInners(trace);
      assert Step(before, Intern(fd, spare)) == Interned(before, fd, spare);
      var id := ids[fds[fd].sock];
      if id in refs && inners[refs[id]].strong > 0 {
        k, redundant := refs[id], true;
        inners := inners[k := inners[k].(strong := inners[k].strong + 1)];
      } else {
        k, redundant := spare, false;
        inners := inners[k := Inner(fd, Some(id), 1, Live)];
        fds := fds[fd := fds[fd].(role := Owned(k))];
        refs := refs[id := k];
      }
      Record(Intern(fd, spare), before);
    }

    method CloseAction(fd: Fd)
      requires Valid() && LooseAt(Abs(), fd) && IsOpen(Abs(), fds[fd].sock)
      modifies this
      ensures Valid() && trace == old(trace) + [Close(fd)] && Abs() == Closed(old(Abs()), fd)
      ensures fds == old(fds) - {fd} && inners == old(inners) && refs == old(refs) && ids == old(ids)
    {
      ghost var before := Abs();
      var sock := fds[fd].sock;
      fds, open := fds - {fd}, open[sock := open[sock] - 1];
      Record(Close(fd), before);
    }

    method AdoptAction(fd: Fd, k: InnerId)
      requires Valid() && LooseAt(Abs(), fd) && k !in inners
      modifies this
      ensures Valid() && trace == old(trace) + [InternUnfiled(fd, k)] && Abs() == Adopt(old(Abs()), fd, k, None)
    {
      ghost var before := Abs();
      inners := inners[k := Inner(fd, None, 1, Live)];
      fds := fds[fd := fds[fd].(role := Owned(k))];
      Record(InternUnfiled(fd, k), before);
    }

    /** A `RefInner` outside the registry. */
    method AdoptUnfiled(fd: Fd, mine: Mine) returns (k: InnerId)
      requires Valid() && Holds(Abs(), mine) && fd in mine.fds
      modifies this
      ensures Valid() && old(trace) <= trace && Holds(Abs(), Gain(mine, fd, k))
      ensures SameHoldings(old(Abs()), Abs(), Without(mine, fd))
      ensures SendsOn(Abs(), k, old(fds)[fd].sock) && inners[k].fd == fd
      ensures inners[k].phase.Live? && inners[k].id.None? && refs == old(refs)
      ensures trace == old(trace) + [InternUnfiled(fd, k)] && Fresh(old(Abs()), Abs(), fd, k, None)
    {
      ghost var bound := Bounded(inners.Keys);
      assert bound !in inners;
      k :| k !in inners;
      Reachable(trace);
      UnfiledHoldings(Abs(), fd, k, mine);
      AdoptAction(fd, k);
    }

    /** `from_fd`: the descriptor becomes a `Ref`, or is closed for one there already is; if its
        socket cannot be identified, it becomes a `Ref` that is never recognised. */
    method FromFd(fd: Fd, identified: bool, mine: Mine, others: seq<Event>) returns (k: InnerId)
      requires Valid() && Holds(Abs(), mine) && fd in mine.fds
      modifies this
      ensures Valid() && Holds(Abs(), Gain(mine, fd, k))
      ensures SameHoldings(old(Abs()), Abs(), Without(mine, fd))
      ensures SendsOn(Abs(), k, old(fds)[fd].sock) && inners[k].phase.Live? && inners[k].id.Some? == identified
      ensures fd in fds ==> fds[fd].role == Owned(k)
      ensures Interns(old(Abs()), old(trace), trace, fd, identified, k, others)
      ensures others == [] ==> Arrived(old(Abs()), Abs(), fd, identified, k)
    {
      if identified {
        k := FromIdentified(fd, mine, others);
      } else {
        k := AdoptUnfiled(fd, mine);
        assert trace[|old(trace)|] == InternUnfiled(fd, k) && old(trace) + [InternUnfiled(fd, k)] == trace;
      }
    }

    /** The usual case of `from_fd`. */
    method FromIdentified(fd: Fd, mine: Mine, others: seq<Event>) returns (k: InnerId)
      requires Valid() && Holds(Abs(), mine) && fd in mine.fds
      modifies this
      ensures Valid() && Holds(Abs(), Gain(mine, fd, k))
      ensures SameHoldings(old(Abs()), Abs(), Without(mine, fd))
      ensures LiveFiled(Abs(), k) && SendsOn(Abs(), k, old(fds)[fd].sock)
      ensures fd in fds ==> fds[fd].role == Owned(k)
      ensures Interns(old(Abs()), old(trace), trace, fd, true, k, others)
      ensures others == [] ==> Arrived(old(Abs()), Abs(), fd, true, k)
    {
      ghost var start := Abs();
      var redundant: bool;
      k, redundant := InternHeld(fd, mine);
      assert trace == old(trace) + [trace[|old(trace)|]];
      if redundant {
        ghost var mid := Abs();
        CloseRedundant(fd, Gain(mine, fd, k), others);
        PartIsSame(mid, Abs(), Gain(mine, fd, k), Without(mine, fd));
        SameTrans(start, mid, Abs(), Without(mine, fd));
        StillLive(trace, mid, k, Gain(mine, fd, k));
      }
    }

    /** The lookup, said in terms of what the holder has in hand. */
    method InternHeld(fd: Fd, mine: Mine) returns (k: InnerId, redundant: bool)
      requires Valid() && Holds(Abs(), mine) && fd in mine.fds
      modifies this
      ensures Valid() && Holds(Abs(), Gain(mine, fd, k))
      ensures SameHoldings(old(Abs()), Abs(), Without(mine, fd))
      ensures LiveFiled(Abs(), k) && SendsOn(Abs(), k, old(fds)[fd].sock)
      ensures if redundant then LooseAt(Abs(), fd) else fd in fds && fds[fd].role == Owned(k)
      ensures |trace| == |old(trace)| + 1 && Interns(old(Abs()), old(trace), trace, fd, true, k, [])
      ensures if redundant
              then Recognised(old(Abs()), old(ids)[old(fds)[fd].sock]) == Some(k)
                   && inners == old(inners)[k := old(inners)[k].(strong := old(inners)[k].strong + 1)]
                   && fds == old(fds) && ids == old(ids) && refs == old(refs)
              else Recognised(old(Abs()), old(ids)[old(fds)[fd].sock]).None?
                   && Fresh(old(Abs()), Abs(), fd, k, Some(old(ids)[old(fds)[fd].sock]))
    {
      ghost var bound := Bounded(inners.Keys);
      assert bound !in inners;
      var spare: InnerId :| spare !in inners;
      Reachable(trace);
      ghost var start := Abs();
      k, redundant := InternAction(fd, spare);
      InternHoldings(start, Abs(), fd, spare, k, mine);
      InternsOnce(start, old(trace), fd, spare, k);
    }

    /** The descriptor a hit leaves over is closed, some time later. */
    method CloseRedundant(fd: Fd, rest: Mine, others: seq<Event>)
      requires Valid() && Holds(Abs(), rest) && LooseAt(Abs(), fd) && fd !in rest.fds
      modifies this
      ensures Valid() && SameHoldings(old(Abs()), Abs(), rest) && fd !in fds
      ensures Ran({Close(fd)}, others, old(trace), trace)
      ensures others == [] ==> fds == old(fds) - {fd} && inners == old(inners) && refs == old(refs) && ids == old(ids)
    {
      ghost var start := Abs();
      var all := rest.(fds := rest.fds + {fd});
      RanOthers({Close(fd)}, others, trace, Abs(), all);
      Interfere(all, others);
      ghost var mid := Abs();
      PartIsSame(start, mid, all, rest);
      CloseNow(fd, rest);
      SameTrans(start, mid, Abs(), rest);
    }

    method CloseNow(fd: Fd, rest: Mine)
      requires Valid() && Holds(Abs(), rest) && LooseAt(Abs(), fd) && fd !in rest.fds
      modifies this
      ensures Valid() && trace == old(trace) + [Close(fd)] && SameHoldings(old(Abs()), Abs(), rest)
      ensures fds == old(fds) - {fd} && inners == old(inners) && refs == old(refs) && ids == old(ids)
    {
      Reachable(trace);
      NamedIsOpen(Abs(), fd);
      CloseHoldings(Abs(), fd, rest);
      CloseAction(fd);
    }

    method DropAction(k: InnerId) returns (last: bool)
      requires Valid() && Alive(Abs(), k)
      modifies this
      ensures Valid() && trace == old(trace) + [DropRef(k)] && Abs() == Dropped(old(Abs()), k)
      ensures last <==> old(inners)[k].strong == 1
      ensures !last ==> Released(old(Abs()), Abs(), k)
      ensures last ==> var r := old(inners)[k]; var phase := if r.id.Some? then Unfiling else Closing;
                       Abs() == old(Abs()).(inners := old(inners)[k := r.(strong := 0, phase := phase)])
    {
      ghost var before := Abs();
      var r := inners[k];
      last := r.strong == 1;
      if last {
        inners := inners[k := r.(strong := 0, phase := if r.id.Some? then Unfiling else Closing)];
      } else {
        inners := inners[k := r.(strong := r.strong - 1)];
      }
      Record(DropRef(k), before);
    }

    /** `REFS.remove_if(id, strong_count == 0)`. */
    method UnfileAction(k: InnerId)
      requires Valid() && k in inners && inners[k].phase.Unfiling? && inners[k].id.Some?
      modifies this
      ensures Valid() && trace == old(trace) + [Unfile(k)] && Abs() == Unfiled(old(Abs()), k)
      ensures var id := old(inners)[k].id.value;
              && (forall other :: other != id ==> (other in refs <==> other in old(refs)))
              && (id in refs <==> id in old(refs) && old(refs)[id] in old(inners) && old(inners)[old(refs)[id]].strong > 0)
              && (forall other :: other in refs ==> refs[other] == old(refs)[other])
      ensures inners == old(inners)[k := old(inners)[k].(phase := Closing)] && fds == old(fds) && open == old(open)
    {
      ghost var before := Abs();
      Reachable(trace);
      var id := inners[k].id.value;
      if id in refs && inners[refs[id]].strong == 0 {
        refs := refs - {id};
      }
      inners := inners[k := inners[k].(phase := Closing)];
      Record(Unfile(k), before);
    }

    method CloseInnerAction(k: InnerId)
      requires Valid() && Enabled(Abs(), CloseInner(k))
      modifies this
      ensures Valid() && trace == old(trace) + [CloseInner(k)] && Abs() == Apply(old(Abs()), CloseInner(k))
    {
      ghost var before := Abs();
      var fd := inners[k].fd;
      var sock := fds[fd].sock;
      fds, open := fds - {fd}, open[sock := open[sock] - 1];
      inners := inners[k := inners[k].(phase := Gone)];
      Record(CloseInner(k), before);
    }

    /** Dropping a `Ref`; the last one unfiles the `RefInner` while its descriptor is still open,
        and only then closes it. */
    method ReleaseRef(k: InnerId, mine: Mine, others: seq<Event>)
      requires Valid() && Holds(Abs(), mine) && k in mine.refs && k !in mine.dying
      modifies this
      ensures Valid() && SameHoldings(old(Abs()), Abs(), Lose(mine, k))
      ensures Ran({Unfile(k), CloseInner(k)}, others, old(trace) + [DropRef(k)], trace)
      ensures others == [] ==> if old(inners)[k].strong == 1 then Dismantled(old(Abs()), Abs(), k)
                               else Released(old(Abs()), Abs(), k)
      ensures k in inners
      ensures if old(inners)[k].strong == 1 then inners[k].phase.Gone? else inners[k].strong == old(inners)[k].strong - 1
    {
      ghost var start := Abs();
      Reachable(trace);
      DropHoldings(start, k, mine);
      var last := DropAction(k);
      if last {
        ghost var mid := Abs();
        LastLeavesEntry(start, k);
        RunDrop(k, Lose(mine, k), others);
        SameTrans(start, mid, Abs(), Lose(mine, k));
        if others == [] {
          DismantledFromLast(start, Abs(), k);
        }
      }
    }

    /** `RefInner::drop`, then the drop of its fields. */
    method RunDrop(k: InnerId, rest: Mine, others: seq<Event>)
      requires Valid() && Holds(Abs(), rest) && Holds(Abs(), WithDying(rest, k)) && k !in rest.dying
      modifies this
      ensures Valid() && SameHoldings(old(Abs()), Abs(), rest)
      ensures k in inners && inners[k].phase.Gone? && Ran({Unfile(k), CloseInner(k)}, others, old(trace), trace)
      ensures others == [] && Entered(old(Abs()), k) ==> Dismantled(old(Abs()), Abs(), k)
    {
      ghost var start, started := Abs(), trace;
      RunUnfile(k, rest, others);
      ghost var mid, upTo := Abs(), trace;
      FinishDrop(k, rest, others);
      RanJoin({Unfile(k), CloseInner(k)}, others, started, upTo, trace);
      SameTrans(start, mid, Abs(), rest);
      if others == [] && Entered(start, k) {
        DismantledInTwo(start, mid, Abs(), k);
      }
    }

    /** The first half: the entry goes while the descriptor is still open. */
    method RunUnfile(k: InnerId, rest: Mine, others: seq<Event>)
      requires Valid() && Holds(Abs(), rest) && Holds(Abs(), WithDying(rest, k)) && k !in rest.dying
      modifies this
      ensures Valid() && SameHoldings(old(Abs()), Abs(), rest)
      ensures k in inners && inners[k].phase.Closing? && Ran({Unfile(k), CloseInner(k)}, others, old(trace), trace)
      ensures others == [] && Entered(old(Abs()), k) ==> EntryGone(old(Abs()), Abs(), k)
    {
      ghost var start := Abs();
      var all := WithDying(rest, k);
      RanOthers({Unfile(k), CloseInner(k)}, others, trace, Abs(), all);
      Interfere(all, others);
      ghost var mid := Abs();
      PartIsSame(start, mid, all, rest);
      if inners[k].phase.Unfiling? {
        UnfileNow(k, rest);
        SameTrans(start, mid, Abs(), rest);
      }
    }

    method UnfileNow(k: InnerId, rest: Mine)
      requires Valid() && Holds(Abs(), rest) && k in inners && inners[k].phase.Unfiling? && k !in rest.dying
      modifies this
      ensures Valid() && trace == old(trace) + [Unfile(k)] && SameHoldings(old(Abs()), Abs(), rest)
      ensures k in inners && inners[k].phase.Closing?
      ensures Entered(old(Abs()), k) ==> EntryGone(old(Abs()), Abs(), k)
    {
      ghost var s := Abs();
      Reachable(trace);
      assert Owns(Abs(), k);
      UnfileHoldings(Abs(), k, rest);
      UnfileAction(k);
      if Entered(s, k) {
        UnfiledAlone(s, k);
      }
    }

    method FinishDrop(k: InnerId, rest: Mine, others: seq<Event>)
      requires Valid() && Holds(Abs(), rest) && k in inners && inners[k].phase.Closing? && k !in rest.dying
      modifies this
      ensures Valid() && SameHoldings(old(Abs()), Abs(), rest)
      ensures k in inners && inners[k].phase.Gone? && Ran({Unfile(k), CloseInner(k)}, others, old(trace), trace)
      ensures others == [] ==>
                && inners == old(inners)[k := old(inners)[k].(phase := Gone)]
                && fds == old(fds) - {old(inners)[k].fd} && ids == old(ids) && refs == old(refs)
    {
      ghost var start := Abs();
      var all := WithDying(rest, k);
      RanOthers({Unfile(k), CloseInner(k)}, others, trace, Abs(), all);
      Interfere(all, others);
      PartIsSame(start, Abs(), all, rest);
      ghost var mid := Abs();
      CloseInnerNow(k, rest);
      SameTrans(start, mid, Abs(), rest);
    }

    method CloseInnerNow(k: InnerId, rest: Mine)
      requires Valid() && Holds(Abs(), rest) && k in inners && inners[k].phase.Closing? && k !in rest.dying
      modifies this
      ensures Valid() && trace == old(trace) + [CloseInner(k)] && SameHoldings(old(Abs()), Abs(), rest)
      ensures inners == old(inners)[k := old(inners)[k].(phase := Gone)]
      ensures fds == old(fds) - {old(inners)[k].fd} && ids == old(ids) && refs == old(refs)
    {
      Reachable(trace);
      assert Owns(Abs(), k);
      NamedIsOpen(Abs(), inners[k].fd);
      CloseInnerHoldings(Abs(), k, rest);
      CloseInnerAction(k);
    }
  }

  /** So many references to `k` in hand, and nothing else. */
  function Only(k: InnerId, n: nat): Mine {
    Mine(map[k := n], {}, {})
  }

  /** And a descriptor. */
  function And(mine: Mine, fd: Fd): Mine {
    mine.(fds := mine.fds + {fd})
  }

  lemma KnownIsShared(s: State, t: State, k: InnerId, fd: Fd, again: InnerId)
    requires Inv(s) && LiveFiled(s, k) && LooseAt(s, fd) && SendsOn(s, k, s.fds[fd].sock)
    requires Arrived(s, t, fd, true, again)
    ensures again == k && Shared(s, t, fd, k)
  {
    assert Owns(s, k);
  }

  lemma HeldIsLive(s: State, k: InnerId, fd: Fd)
    requires Inv(s) && Holds(s, And(Only(k, 1), fd)) && s.inners[k].id.Some?
    ensures LiveFiled(s, k) && LooseAt(s, fd)
  {
    assert k in Only(k, 1).refs && Owns(s, k);
  }

  lemma SecondReference(k: InnerId, fd: Fd)
    ensures Gain(And(Only(k, 1), fd), fd, k) == Only(k, 2)
  {
  }

  /** Both references dropped, one after the other, with nobody else about: the first changes nothing but
      the count, and with the second the `RefInner` goes. */
  method LetGoTwice(p: Process, k: InnerId)
    requires p.Valid() && Holds(p.Abs(), Only(k, 2)) && p.inners[k].strong == 2
    modifies p
    ensures p.Valid() && Dismantled(old(p.Abs()), p.Abs(), k)
  {
    ghost var s := p.Abs();
    p.ReleaseRef(k, Only(k, 2), []);
    assert Lose(Only(k, 2), k) == Only(k, 1);
    assert p.inners[k].strong == 1;
    ghost var mid := p.Abs();
    p.ReleaseRef(k, Only(k, 1), []);
    DismantledLater(s, mid, p.Abs(), k);
  }

  lemma DismantledLater(s: State, mid: State, t: State, k: InnerId)
    requires Released(s, mid, k) && Dismantled(mid, t, k)
    ensures Dismantled(s, t, k)
  {
  }

  lemma DismantledShared(s: State, mid: State, t: State, fd: Fd, k: InnerId)
    requires Shared(s, mid, fd, k) && Dismantled(mid, t, k)
    ensures t.inners == s.inners[k := s.inners[k].(strong := 0, phase := Gone)]
    ensures t.fds == s.fds - {fd, s.inners[k].fd} && Unentered(s, t, k)
  {
    assert s.fds - {fd, s.inners[k].fd} == (s.fds - {fd}) - {s.inners[k].fd};
  }

  method RecogniseKnown(p: Process, k: InnerId, fd: Fd) returns (again: InnerId)
    requires p.Valid() && Holds(p.Abs(), And(Only(k, 1), fd)) && p.inners[k].id.Some?
    requires SendsOn(p.Abs(), k, p.fds[fd].sock)
    modifies p
    ensures p.Valid() && again == k && Shared(old(p.Abs()), p.Abs(), fd, k) && Holds(p.Abs(), Only(k, 2))
  {
    ghost var s := p.Abs();
    Reachable(p.trace);
    HeldIsLive(s, k, fd);
    again := p.FromFd(fd, true, And(Only(k, 1), fd), []);
    KnownIsShared(s, p.Abs(), k, fd, again);
    SecondReference(k, fd);
  }

  /** A recognised `Ref` counts like any other: with nobody else about, a descriptor for a known socket
      becomes a second reference to the same `RefInner`, which outlives the first one's drop and is gone,
      unfiled and closed, with the second's. */
  method HoldAndLetGo(p: Process, k: InnerId, fd: Fd) returns (again: InnerId)
    requires p.Valid() && Holds(p.Abs(), And(Only(k, 1), fd)) && p.inners[k].strong == 1 && p.inners[k].id.Some?
    requires SendsOn(p.Abs(), k, p.fds[fd].sock)
    modifies p
    ensures p.Valid() && again == k
    ensures p.inners == old(p.inners)[k := old(p.inners)[k].(strong := 0, phase := Gone)]
    ensures p.fds == old(p.fds) - {fd, old(p.inners)[k].fd} && Unentered(old(p.Abs()), p.Abs(), k)
  {
    ghost var s := p.Abs();
    again := RecogniseKnown(p, k, fd);
    ghost var mid := p.Abs();
    LetGoTwice(p, k);
    DismantledShared(s, mid, p.Abs(), fd, k);
  }
}
