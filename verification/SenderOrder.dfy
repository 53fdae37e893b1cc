/** One sender that never has two calls in progress: what reaches the wire is a prefix of what it
    was told was accepted, whatever every other sender does meanwhile. */
module SenderOrder {
  import opened Wire
  import opened SendModel
  import opened SendInvariant
  import opened SendOrder

  /** The parcels of the calls in `mine`, in order. */
  function Only(ps: seq<Parcel>, mine: iset<CallId>): (r: seq<Parcel>)
    ensures forall p :: p in r <==> p in ps && p.call in mine
  {
    if ps == [] then []
    else
      assert ps == [ps[0]] + ps[1..];
      if ps[0].call in mine then [ps[0]] + Only(ps[1..], mine) else Only(ps[1..], mine)
  }

  lemma {:induction false} OnlyConcat(a: seq<Parcel>, b: seq<Parcel>, mine: iset<CallId>)
    ensures Only(a + b, mine) == Only(a, mine) + Only(b, mine)
  {
    if a == [] {
      assert a + b == b;
    } else {
      assert (a + b)[1..] == a[1..] + b;
      OnlyConcat(a[1..], b, mine);
    }
  }

  /** No call in `mine` begins while another is in progress. */
  predicate Sequential(mine: iset<CallId>, s: State, es: seq<Event>)
    decreases |es|
  {
    es == [] ||
    ((es[0].Begin? && es[0].call in mine ==> forall c :: c in s.calls && c in mine ==> Done(s.calls[c].pc))
     && Sequential(mine, Step(s, es[0]), es[1..]))
  }

  /** The sender has at most one call in progress, and nothing of its was accepted since it began. */
  predicate OneAtATime(s: State, mine: iset<CallId>) {
    && (forall c, d | c in s.calls && d in s.calls && c in mine && d in mine
          :: !Done(s.calls[c].pc) && !Done(s.calls[d].pc) ==> c == d)
    && (forall c, i | c in s.calls && c in mine && s.calls[c].seen <= i < |s.accepted|
          :: !Done(s.calls[c].pc) ==> s.accepted[i].call !in mine)
  }

  /** Of two accepted messages of the sender's, the later call had seen the earlier one. */
  predicate SeenInOrder(s: State, mine: iset<CallId>) {
    forall i, j | 0 <= i < j < |s.accepted| && s.accepted[j].call in s.calls
      :: s.accepted[i].call in mine && s.accepted[j].call in mine ==> i < s.calls[s.accepted[j].call].seen
  }

  /** Nothing of the sender's is queued when its call is cleared for the fast path. */
  lemma NothingQueued(s: State, mine: iset<CallId>, c: CallId)
    requires Inv(s) && OneAtATime(s, mine) && c in s.calls && c in mine && s.calls[c].pc.Cleared?
    ensures Only(Line(s), mine) == []
  {
    if Only(Line(s), mine) != [] {
      var x := Only(Line(s), mine)[0];
      assert x in Only(Line(s), mine);
      assert x in Line(s) && x.call in mine;
      QueuedIsSeen(s, mine, c, x);
      QueuedIsUnsettled(s, x);
    }
  }

  /** A queued message is neither on the wire nor among those that failed. */
  lemma QueuedIsUnsettled(s: State, x: Parcel)
    requires Conserve(s) && x in Line(s)
    ensures !Settled(s, x)
  {
    assert multiset(Line(s)) == multiset(HeldBy(Main(s).drain)) + multiset(Main(s).queue);
    assert multiset(Line(s))[x] > 0;
    OnceAccepted(s, x);
    assert multiset(s.accepted)[x] == Places(s)[x];
  }

  /** A queued message of the sender's own was accepted before the call in progress began. */
  lemma QueuedIsSeen(s: State, mine: iset<CallId>, c: CallId, x: Parcel)
    requires Conserve(s) && OneAtATime(s, mine) && c in s.calls && c in mine && !Done(s.calls[c].pc)
    requires CallShape(s, s.calls[c]) && x in Line(s) && x.call in mine
    ensures x in SeenBy(s, c)
  {
    assert multiset(Line(s)) == multiset(HeldBy(Main(s).drain)) + multiset(Main(s).queue);
    assert x in multiset(Line(s)) && x in multiset(s.accepted);
    var i :| 0 <= i < |s.accepted| && s.accepted[i] == x;
    assert i < s.calls[c].seen;
    assert SeenBy(s, c)[i] == x;
  }

  /** An accepted message is in exactly one place. */
  lemma OnceAccepted(s: State, x: Parcel)
    requires Ledger(s)
    ensures multiset(s.accepted)[x] <= 1
  {
    NoRepeats(s.accepted, x);
  }

  lemma {:induction false} NoRepeats(ps: seq<Parcel>, x: Parcel)
    requires forall i, j :: 0 <= i < j < |ps| ==> ps[i].call != ps[j].call
    ensures multiset(ps)[x] <= 1
  {
    if ps != [] {
      var rest := ps[1..];
      assert ps == [ps[0]] + rest;
      NoRepeats(rest, x);
      if x in rest {
        var j :| 0 <= j < |rest| && rest[j] == x;
        assert ps[0].call != ps[j + 1].call;
      }
    }
  }

  /** A step accepts at most its own call's message, and that call was in progress. */
  predicate AcceptsOwn(s: State, e: Event, t: State) {
    || t.accepted == s.accepted
    || (&& (e.InlineSend? || e.Push? || e.PermitSend?)
        && e.call in s.calls && !Done(s.calls[e.call].pc)
        && e.call in t.calls && Done(t.calls[e.call].pc)
        && t.accepted == s.accepted + [Parcel(e.call, s.calls[e.call].message)])
  }

  lemma AcceptsCall(s: State, e: Event)
    requires Enabled(s, e) && (e.InlineSend? || e.Push? || e.PermitSend?)
    ensures AcceptsOwn(s, e, ApplyCall(s, e))
  {
  }

  lemma AcceptsNothing(s: State, e: Event)
    requires Enabled(s, e) && !e.InlineSend? && !e.Push? && !e.PermitSend?
    ensures Apply(s, e).accepted == s.accepted
  {
  }

  lemma AcceptsStep(s: State, e: Event)
    ensures AcceptsOwn(s, e, Step(s, e))
  {
    if Enabled(s, e) {
      if e.InlineSend? || e.Push? || e.PermitSend? {
        AcceptsCall(s, e);
      } else {
        AcceptsNothing(s, e);
      }
    }
  }

  lemma OneAtATimeKept(s: State, mine: iset<CallId>, e: Event, t: State)
    requires OneAtATime(s, mine) && Later(s, t) && AcceptsOwn(s, e, t)
    requires forall c :: c in t.calls && c !in s.calls ==> e.Begin? && e.call == c
    requires e.Begin? && e.call in mine ==> forall c :: c in s.calls && c in mine ==> Done(s.calls[c].pc)
    ensures OneAtATime(t, mine)
  {
  }

  lemma OneAtATimeStep(s: State, mine: iset<CallId>, e: Event)
    requires OneAtATime(s, mine)
    requires e.Begin? && e.call in mine ==> forall c :: c in s.calls && c in mine ==> Done(s.calls[c].pc)
    ensures OneAtATime(Step(s, e), mine)
  {
    LaterStep(s, e);
    AcceptsStep(s, e);
    CallsStep(s, e);
    OneAtATimeKept(s, mine, e, Step(s, e));
  }

  lemma SeenInOrderKept(s: State, mine: iset<CallId>, e: Event, t: State)
    requires Ledger(s) && OneAtATime(s, mine) && SeenInOrder(s, mine) && Later(s, t) && AcceptsOwn(s, e, t)
    ensures SeenInOrder(t, mine)
  {
    forall i, j | 0 <= i < j < |t.accepted| && t.accepted[j].call in t.calls
                  && t.accepted[i].call in mine && t.accepted[j].call in mine
      ensures i < t.calls[t.accepted[j].call].seen
    {
      assert t.accepted[i] == s.accepted[i];
      if j < |s.accepted| {
        assert IsAccepted(s, s.accepted[j]);
      }
    }
  }

  lemma SeenInOrderStep(s: State, mine: iset<CallId>, e: Event)
    requires Ledger(s) && OneAtATime(s, mine) && SeenInOrder(s, mine)
    ensures SeenInOrder(Step(s, e), mine)
  {
    LaterStep(s, e);
    AcceptsStep(s, e);
    SeenInOrderKept(s, mine, e, Step(s, e));
  }

  lemma {:induction false} SenderAfter(s: State, mine: iset<CallId>, es: seq<Event>)
    requires Inv(s) && OneAtATime(s, mine) && SeenInOrder(s, mine) && Sequential(mine, s, es)
    ensures var t := After(s, es); Inv(t) && OneAtATime(t, mine) && SeenInOrder(t, mine)
    decreases |es|
  {
    if es != [] {
      InvStep(s, es[0]);
      OneAtATimeStep(s, mine, es[0]);
      SeenInOrderStep(s, mine, es[0]);
      SenderAfter(Step(s, es[0]), mine, es[1..]);
    }
  }

  // ---- From what each call had seen to the order of the whole ----

  predicate Distinct(ps: seq<Parcel>) {
    forall i, j :: 0 <= i < j < |ps| ==> ps[i] != ps[j]
  }

  lemma SamePlace(w: seq<Parcel>, a: seq<Parcel>, k: nat, j: nat)
    requires k < |w| && k <= |a| && j < |a| && w[..k] == a[..k] && w[k] == a[j]
    requires Distinct(w) && Distinct(a) && (k < j ==> a[k] in w[..k])
    ensures j == k
  {
    assert forall i :: 0 <= i < k ==> w[i] == w[..k][i] == a[..k][i] == a[i];
    if k < |a| {
      assert a[k] !in a[..k];
    }
  }

  /** A sequence that takes from another only what it has taken everything before is a prefix of it. */
  lemma {:induction false} PrefixTo(w: seq<Parcel>, a: seq<Parcel>, n: nat)
    requires n <= |w| && Distinct(w) && Distinct(a) && forall p :: p in w ==> p in a
    requires forall k, j, i :: 0 <= k < |w| && 0 <= i < j < |a| && w[k] == a[j] ==> a[i] in w[..k]
    ensures n <= |a| && w[..n] == a[..n]
  {
    if n > 0 {
      var k := n - 1;
      PrefixTo(w, a, k);
      assert w[k] in w && w[k] in a;
      var j :| 0 <= j < |a| && a[j] == w[k];
      SamePlace(w, a, k, j);
      assert w[..n] == w[..k] + [w[k]] && a[..n] == a[..k] + [a[k]];
    }
  }

  lemma OnlyTake(ps: seq<Parcel>, mine: iset<CallId>, j: nat)
    requires j < |ps|
    ensures Only(ps[..j + 1], mine) == (if ps[0].call in mine then [ps[0]] else []) + Only(ps[1..][..j], mine)
  {
    assert ps[..j + 1][1..] == ps[1..][..j];
  }

  /** Where the `k`th parcel of the sender's stands among all. */
  lemma {:induction false} Standing(ps: seq<Parcel>, mine: iset<CallId>, k: nat) returns (i: nat)
    requires k < |Only(ps, mine)|
    ensures i < |ps| && ps[i] == Only(ps, mine)[k] && Only(ps[..i], mine) == Only(ps, mine)[..k]
  {
    if ps[0].call in mine && k == 0 {
      i := 0;
    } else {
      var rest := ps[1..];
      var j := Standing(rest, mine, if ps[0].call in mine then k - 1 else k);
      i := j + 1;
      OnlyTake(ps, mine, j);
    }
  }

  lemma {:induction false} OnlyDistinct(ps: seq<Parcel>, mine: iset<CallId>)
    requires Distinct(ps)
    ensures Distinct(Only(ps, mine))
  {
    if ps != [] {
      var rest := ps[1..];
      assert forall i :: 0 <= i < |rest| ==> rest[i] == ps[i + 1];
      OnlyDistinct(rest, mine);
    }
  }

  /** In `q`, what a call had seen of the sender's is ahead of the call's own message. */
  predicate Behind(s: State, q: seq<Parcel>, mine: iset<CallId>) {
    forall i, x :: 0 <= i < |q| && x in SeenBy(s, q[i].call) && x.call in mine ==> x in q[..i]
  }

  lemma BothStand(ps: seq<Parcel>, mine: iset<CallId>, j: nat, i: nat) returns (earlier: nat, later: nat)
    requires i < j < |Only(ps, mine)|
    ensures earlier < later < |ps| && ps[earlier] == Only(ps, mine)[i] && ps[later] == Only(ps, mine)[j]
    ensures ps[earlier].call in mine && ps[later].call in mine
  {
    later := Standing(ps, mine, j);
    var x := Only(ps, mine)[i];
    assert Only(ps, mine)[j] in Only(ps, mine);
    assert x == Only(ps, mine)[..j][i] && x in Only(ps[..later], mine);
    earlier :| 0 <= earlier < later && ps[..later][earlier] == x;
  }

  /** Of the sender's accepted messages, each call had seen those before its own. */
  lemma SawEarlier(s: State, mine: iset<CallId>, j: nat, i: nat)
    requires Ledger(s) && SeenInOrder(s, mine) && i < j < |Only(s.accepted, mine)|
    requires forall c :: c in s.calls ==> s.calls[c].seen <= |s.accepted|
    ensures var a := Only(s.accepted, mine); a[i] in SeenBy(s, a[j].call) && a[i].call in mine
  {
    var earlier, later := BothStand(s.accepted, mine, j, i);
    assert IsAccepted(s, s.accepted[later]);
    SawAt(s, mine, earlier, later);
  }

  lemma SawAt(s: State, mine: iset<CallId>, earlier: nat, later: nat)
    requires SeenInOrder(s, mine) && earlier < later < |s.accepted| && s.accepted[later].call in s.calls
    requires s.accepted[earlier].call in mine && s.accepted[later].call in mine
    requires s.calls[s.accepted[later].call].seen <= |s.accepted|
    ensures s.accepted[earlier] in SeenBy(s, s.accepted[later].call)
  {
    assert SeenBy(s, s.accepted[later].call)[earlier] == s.accepted[earlier];
  }

  lemma AheadOf(s: State, q: seq<Parcel>, mine: iset<CallId>, k: nat, j: nat, i: nat)
    requires Ledger(s) && SeenInOrder(s, mine) && Behind(s, q, mine)
    requires forall c :: c in s.calls ==> s.calls[c].seen <= |s.accepted|
    requires k < |Only(q, mine)| && i < j < |Only(s.accepted, mine)| && Only(q, mine)[k] == Only(s.accepted, mine)[j]
    ensures Only(s.accepted, mine)[i] in Only(q, mine)[..k]
  {
    var at := Standing(q, mine, k);
    SawEarlier(s, mine, j, i);
    assert Only(s.accepted, mine)[i] in q[..at];
  }

  lemma SubDistinct(s: State, q: seq<Parcel>)
    requires Ledger(s) && multiset(q) <= multiset(s.accepted)
    ensures Distinct(q) && Distinct(s.accepted)
  {
    forall i, j | 0 <= i < j < |q|
      ensures q[i] != q[j]
    {
      OnceAccepted(s, q[i]);
      assert q == q[..j] + [q[j]] + q[j + 1..];
      assert q[i] in q[..j];
    }
  }

  /** Then the sender's part of it is a prefix of what was accepted from the sender. */
  lemma BehindIsPrefix(s: State, q: seq<Parcel>, mine: iset<CallId>)
    requires Ledger(s) && SeenInOrder(s, mine) && Behind(s, q, mine) && multiset(q) <= multiset(s.accepted)
    requires forall c :: c in s.calls ==> s.calls[c].seen <= |s.accepted|
    ensures Only(q, mine) <= Only(s.accepted, mine)
  {
    var w := Only(q, mine);
    var a := Only(s.accepted, mine);
    SubDistinct(s, q);
    OnlyDistinct(q, mine);
    OnlyDistinct(s.accepted, mine);
    forall p | p in w
      ensures p in a
    {
      assert p in multiset(q) && p in multiset(s.accepted);
    }
    forall k, j, i | 0 <= k < |w| && 0 <= i < j < |a| && w[k] == a[j]
      ensures a[i] in w[..k]
    {
      AheadOf(s, q, mine, k, j, i);
    }
    PrefixTo(w, a, |w|);
    assert w[..|w|] == w;
  }

  /** The sender's calls whose message fits in one control message. */
  ghost function FittingCalls(s: State, mine: iset<CallId>): iset<CallId> {
    iset c | c in mine && c in s.calls && Sendable(s.calls[c].message)
  }

  lemma WireIsBehind(s: State, mine: iset<CallId>)
    requires Inv(s)
    ensures Behind(s, s.wire, FittingCalls(s, mine))
  {
    forall i, x | 0 <= i < |s.wire| && x in SeenBy(s, s.wire[i].call) && x.call in FittingCalls(s, mine)
      ensures x in s.wire[..i]
    {
      assert x in s.wire[..i] || Oversized(s, x);
      SeenIsAccepted(s, s.wire[i].call, x);
    }
  }

  lemma SeenIsAccepted(s: State, c: CallId, x: Parcel)
    requires Ledger(s) && x in SeenBy(s, c)
    ensures IsAccepted(s, x)
  {
    var k :| 0 <= k < |SeenBy(s, c)| && SeenBy(s, c)[k] == x;
    assert s.accepted[k] == x;
  }

  /** With nothing failed, the wire and the line behind it are in order as one. */
  lemma WholeIsBehind(s: State, mine: iset<CallId>)
    requires Inv(s) && s.failed == []
    ensures Behind(s, s.wire + Line(s), mine)
  {
    var q := s.wire + Line(s);
    forall i, x | 0 <= i < |q| && x in SeenBy(s, q[i].call)
      ensures x in q[..i]
    {
      if i < |s.wire| {
        assert q[..i] == s.wire[..i];
        assert x in s.wire[..i] || Oversized(s, x);
      } else {
        var j := i - |s.wire|;
        assert q[..i] == s.wire + Line(s)[..j] && q[i] == Line(s)[j];
        assert Settled(s, x) || x in Line(s)[..j];
      }
    }
  }

  lemma WireFitting(s: State, mine: iset<CallId>)
    requires Inv(s)
    ensures Only(s.wire, FittingCalls(s, mine)) == Only(s.wire, mine)
  {
    forall p | p in s.wire
      ensures p.call in mine <==> p.call in FittingCalls(s, mine)
    {
      PlacedIsAccepted(s, p);
    }
    SameOnly(s.wire, mine, FittingCalls(s, mine));
  }

  lemma {:induction false} SameOnly(ps: seq<Parcel>, a: iset<CallId>, b: iset<CallId>)
    requires forall p :: p in ps ==> (p.call in a <==> p.call in b)
    ensures Only(ps, a) == Only(ps, b)
  {
    if ps != [] {
      SameOnly(ps[1..], a, b);
    }
  }

  lemma SeenInBounds(s: State)
    requires Shape(s)
    ensures forall c :: c in s.calls ==> s.calls[c].seen <= |s.accepted|
  {
    forall c | c in s.calls
      ensures s.calls[c].seen <= |s.accepted|
    {
      assert CallShape(s, s.calls[c]);
    }
  }

  lemma PrefixInState(s: State, mine: iset<CallId>)
    requires Inv(s) && SeenInOrder(s, mine)
    ensures Only(s.wire, mine) <= Only(s.accepted, FittingCalls(s, mine))
  {
    assert multiset(s.wire) <= Places(s);
    WireIsBehind(s, mine);
    SeenInBounds(s);
    BehindIsPrefix(s, s.wire, FittingCalls(s, mine));
    WireFitting(s, mine);
  }

  lemma WholeInState(s: State, mine: iset<CallId>)
    requires Inv(s) && SeenInOrder(s, mine) && s.failed == []
    ensures Only(s.wire, mine) + Only(Line(s), mine) == Only(s.accepted, mine)
  {
    var q := s.wire + Line(s);
    assert s.stranded == [];
    assert multiset(Line(s)) == multiset(HeldBy(Main(s).drain)) + multiset(Main(s).queue);
    assert multiset(q) == multiset(s.accepted);
    WholeIsBehind(s, mine);
    SeenInBounds(s);
    BehindIsPrefix(s, q, mine);
    OnlyConcat(s.wire, Line(s), mine);
    SubDistinct(s, q);
    PrefixIsAll(s, q, mine);
  }

  lemma PrefixIsAll(s: State, q: seq<Parcel>, mine: iset<CallId>)
    requires Distinct(s.accepted) && multiset(q) == multiset(s.accepted) && Only(q, mine) <= Only(s.accepted, mine)
    ensures Only(q, mine) == Only(s.accepted, mine)
  {
    var w := Only(q, mine);
    var a := Only(s.accepted, mine);
    OnlyDistinct(s.accepted, mine);
    if a != [] {
      var last := a[|a| - 1];
      assert last in a && last in multiset(s.accepted) && last in multiset(q);
      var k :| 0 <= k < |w| && w[k] == last;
      assert a[k] == last;
    }
  }

  /** What a sequential sender has on the wire is a prefix of what was accepted from it, less its own
      oversized messages, whatever other senders send; while nothing has failed, the rest is queued
      behind it, in order. */
  lemma SenderPrefix(mine: iset<CallId>, es: seq<Event>)
    requires Sequential(mine, INITIAL, es)
    ensures var s := After(INITIAL, es);
      && Only(s.wire, mine) <= Only(s.accepted, FittingCalls(s, mine))
      && (s.failed == [] ==> Only(s.wire, mine) + Only(Line(s), mine) == Only(s.accepted, mine))
  {
    InitialInv();
    SenderAfter(INITIAL, mine, es);
    var s := After(INITIAL, es);
    PrefixInState(s, mine);
    if s.failed == [] {
      WholeInState(s, mine);
    }
  }

  /** Nothing oversized was accepted from the sender. */
  predicate AcceptedFits(s: State, mine: iset<CallId>) {
    forall p :: p in s.accepted && p.call in mine ==> Sendable(p.message)
  }

  /** So a sender of whom nothing oversized was accepted has a prefix of all that was. */
  lemma FittingSenderPrefix(mine: iset<CallId>, es: seq<Event>)
    requires Sequential(mine, INITIAL, es) && AcceptedFits(After(INITIAL, es), mine)
    ensures Only(After(INITIAL, es).wire, mine) <= Only(After(INITIAL, es).accepted, mine)
  {
    var s := After(INITIAL, es);
    SenderPrefix(mine, es);
    Reachable(es);
    forall p | p in s.accepted
      ensures p.call in mine <==> p.call in FittingCalls(s, mine)
    {
      var i :| 0 <= i < |s.accepted| && s.accepted[i] == p;
      assert IsAccepted(s, s.accepted[i]);
    }
    SameOnly(s.accepted, mine, FittingCalls(s, mine));
  }
}
