/** The receiving side: one fixed buffer, reused for every record, and a handler that may scribble
    over what it is handed. */
module ReceiveLoop {
  import opened Wire

  /** What one `recvmsg` finds: a record, nothing yet, a hangup, or an error. A hangup reads as a
      record of no bytes. */
  datatype Arrival = Record(message: Message) | NotReady | Hangup | Fault

  /** What the handler is called with. */
  type Delivery = Message

  datatype Ending = HungUp | Failed | Waiting

  /** `Received`: the record's true length, however much of it fitted, and its descriptors. */
  datatype Received = Received(bytes: nat, fds: seq<Description>)

  predicate Truncated(r: Received, bufferLength: nat) {
    r.bytes > bufferLength
  }

  /** Does the loop go on past this arrival? */
  predicate Ends(a: Arrival) {
    a.Hangup? || a.Fault? || (a.Record? && a.message.data == [])
  }

  /** The arrivals before the first that ends the loop. */
  function BeforeEnd(arrivals: seq<Arrival>): (r: seq<Arrival>)
    ensures r <= arrivals
    ensures forall a :: a in r ==> !Ends(a)
    ensures |r| < |arrivals| ==> Ends(arrivals[|r|])
  {
    if arrivals == [] || Ends(arrivals[0]) then []
    else
      assert arrivals == [arrivals[0]] + arrivals[1..];
      [arrivals[0]] + BeforeEnd(arrivals[1..])
  }

  /** The records among them, in order, and of those the ones that fit the buffer. */
  function Records(arrivals: seq<Arrival>): seq<Message> {
    if arrivals == [] then []
    else (if arrivals[0].Record? then [arrivals[0].message] else []) + Records(arrivals[1..])
  }

  function Fitting(records: seq<Message>): seq<Message> {
    if records == [] then []
    else (if FitsBuffer(records[0]) then [records[0]] else []) + Fitting(records[1..])
  }

  function Attachments(records: seq<Message>): seq<Description> {
    if records == [] then [] else records[0].fds + Attachments(records[1..])
  }

  /** What the handler should be called with, in order. */
  function Handled(arrivals: seq<Arrival>): seq<Message> {
    Fitting(Records(BeforeEnd(arrivals)))
  }

  /** Everything the loop reads, the record that ends it included. */
  function Read(arrivals: seq<Arrival>): seq<Message> {
    var n := |BeforeEnd(arrivals)|;
    Records(arrivals[..if n < |arrivals| then n + 1 else n])
  }

  lemma {:induction false} RecordsConcat(a: seq<Arrival>, b: seq<Arrival>)
    ensures Records(a + b) == Records(a) + Records(b)
  {
    if a == [] {
      assert a + b == b;
    } else {
      var first := if a[0].Record? then [a[0].message] else [];
      assert (a + b)[0] == a[0] && (a + b)[1..] == a[1..] + b;
      RecordsConcat(a[1..], b);
      assert first + (Records(a[1..]) + Records(b)) == (first + Records(a[1..])) + Records(b);
    }
  }

  lemma {:induction false} FittingConcat(a: seq<Message>, b: seq<Message>)
    ensures Fitting(a + b) == Fitting(a) + Fitting(b)
  {
    if a == [] {
      assert a + b == b;
    } else {
      var first := if FitsBuffer(a[0]) then [a[0]] else [];
      assert (a + b)[0] == a[0] && (a + b)[1..] == a[1..] + b;
      FittingConcat(a[1..], b);
      assert first + (Fitting(a[1..]) + Fitting(b)) == (first + Fitting(a[1..])) + Fitting(b);
    }
  }

  lemma {:induction false} AttachmentsConcat(a: seq<Message>, b: seq<Message>)
    ensures Attachments(a + b) == Attachments(a) + Attachments(b)
  {
    if a == [] {
      assert a + b == b;
    } else {
      assert (a + b)[1..] == a[1..] + b;
      AttachmentsConcat(a[1..], b);
      assert a[0].fds + (Attachments(a[1..]) + Attachments(b)) == (a[0].fds + Attachments(a[1..])) + Attachments(b);
    }
  }

  /** A prefix without an end is passed over whole. */
  lemma {:induction false} BeforeEndWhole(a: seq<Arrival>, b: seq<Arrival>)
    requires forall x :: x in a ==> !Ends(x)
    ensures BeforeEnd(a + b) == a + BeforeEnd(b)
  {
    if a == [] {
      assert a + b == b;
    } else {
      assert (a + b)[1..] == a[1..] + b;
      BeforeEndWhole(a[1..], b);
    }
  }

  /** The loop ends at the first arrival that ends it. */
  lemma EndsHere(arrivals: seq<Arrival>, i: nat)
    requires i < |arrivals| && Ends(arrivals[i]) && forall j :: 0 <= j < i ==> !Ends(arrivals[j])
    ensures BeforeEnd(arrivals) == arrivals[..i] && Read(arrivals) == Records(arrivals[..i + 1])
  {
    var before, rest := arrivals[..i], arrivals[i..];
    assert arrivals == before + rest && BeforeEnd(rest) == [];
    forall x | x in before
      ensures !Ends(x)
    {
    }
    BeforeEndWhole(before, rest);
    assert before + [] == before && |BeforeEnd(arrivals)| == i;
  }

  lemma NeverEnds(arrivals: seq<Arrival>)
    requires forall j :: 0 <= j < |arrivals| ==> !Ends(arrivals[j])
    ensures BeforeEnd(arrivals) == arrivals && Read(arrivals) == Records(arrivals)
  {
    BeforeEndWhole(arrivals, []);
    assert arrivals + [] == arrivals && arrivals[..|arrivals|] == arrivals;
  }

  /** `recv_now`: fills the buffer as far as it goes and reports the record's true length. */
  method RecvNow(buf: array<Byte>, m: Message) returns (r: Received)
    modifies buf
    ensures r == Received(|m.data|, m.fds)
    ensures var n := if |m.data| < buf.Length then |m.data| else buf.Length; buf[..n] == m.data[..n]
    ensures forall i :: |m.data| <= i < buf.Length ==> buf[i] == old(buf[i])
  {
    var n := if |m.data| < buf.Length then |m.data| else buf.Length;
    for i := 0 to n
      invariant forall j :: 0 <= j < i ==> buf[j] == m.data[j]
      invariant forall j :: i <= j < buf.Length ==> buf[j] == old(buf[j])
    {
      buf[i] := m.data[i];
    }
    r := Received(|m.data|, m.fds);
  }

  /** The handler's slice of the buffer after it has done as it pleased with it. */
  method Scribble(buf: array<Byte>, n: nat, marks: seq<Byte>)
    requires n <= buf.Length
    modifies buf
    ensures forall i :: n <= i < buf.Length ==> buf[i] == old(buf[i])
  {
    for i := 0 to n
      invariant forall j :: n <= j < buf.Length ==> buf[j] == old(buf[j])
    {
      if i < |marks| {
        buf[i] := marks[i];
      }
    }
  }

  /** What the loop does with one arrival: the handler calls it makes, the descriptors it closes,
      and whether it goes round again. */
  method TakeArrival(buf: array<Byte>, a: Arrival, marks: seq<Byte>)
    returns (call: seq<Delivery>, dropped: seq<Description>, on: bool)
    requires buf.Length == MAX_MESSAGE_SIZE
    modifies buf
    ensures on <==> !Ends(a)
    ensures on ==> call == Fitting(Records([a]))
    ensures !on ==> call == [] && dropped == Attachments(Records([a]))
    ensures multiset(Attachments(call)) + multiset(dropped) == multiset(Attachments(Records([a])))
  {
    call, dropped, on := [], [], true;
    match a {
      case NotReady =>
      case Hangup => on := false;
      case Fault => on := false;
      case Record(m) =>
        assert Attachments([m]) == m.fds;
        var received := RecvNow(buf, m);
        if received.bytes == 0 {
          dropped, on := received.fds, false;
        } else if Truncated(received, buf.Length) {
          dropped := received.fds;
        } else {
          assert m.data[..|m.data|] == m.data;
          call := [Message(buf[..received.bytes], received.fds)];
          Scribble(buf, received.bytes, marks);
        }
    }
  }

  /** The handler calls and closed descriptors are those of these records. */
  predicate Accounts(records: seq<Message>, handled: seq<Delivery>, closed: seq<Description>) {
    && handled == Fitting(records)
    && multiset(Attachments(handled)) + multiset(closed) == multiset(Attachments(records))
  }

  lemma AccountsMore(arrivals: seq<Arrival>, i: nat, handled: seq<Delivery>, closed: seq<Description>,
                     call: seq<Delivery>, dropped: seq<Description>)
    requires i < |arrivals| && Accounts(Records(arrivals[..i]), handled, closed)
    requires call == Fitting(Records([arrivals[i]]))
    requires multiset(Attachments(call)) + multiset(dropped) == multiset(Attachments(Records([arrivals[i]])))
    ensures Accounts(Records(arrivals[..i + 1]), handled + call, closed + dropped)
  {
    assert arrivals[..i + 1] == arrivals[..i] + [arrivals[i]];
    RecordsConcat(arrivals[..i], [arrivals[i]]);
    AccountsConcat(Records(arrivals[..i]), Records([arrivals[i]]), handled, closed, call, dropped);
  }

  lemma AccountsConcat(a: seq<Message>, b: seq<Message>, handled: seq<Delivery>, closed: seq<Description>,
                       call: seq<Delivery>, dropped: seq<Description>)
    requires Accounts(a, handled, closed) && Accounts(b, call, dropped)
    ensures Accounts(a + b, handled + call, closed + dropped)
  {
    AttachmentsConcat(handled, call);
    AttachmentsConcat(a, b);
    FittingConcat(a, b);
  }

  /** What the whole loop owes: the right calls, every descriptor handed over or closed, and an
      ending for the right reason. */
  predicate Complete(arrivals: seq<Arrival>, handled: seq<Delivery>, closed: seq<Description>, ending: Ending) {
    var before := BeforeEnd(arrivals);
    && handled == Handled(arrivals)
    && multiset(Attachments(handled)) + multiset(closed) == multiset(Attachments(Read(arrivals)))
    && (ending.Waiting? <==> before == arrivals)
    && (ending.Failed? <==> |before| < |arrivals| && arrivals[|before|].Fault?)
  }

  lemma CompleteAtEnd(arrivals: seq<Arrival>, i: nat, handled: seq<Delivery>, closed: seq<Description>,
                      dropped: seq<Description>)
    requires i < |arrivals| && Ends(arrivals[i]) && forall j :: 0 <= j < i ==> !Ends(arrivals[j])
    requires Accounts(Records(arrivals[..i]), handled, closed)
    requires dropped == Attachments(Records([arrivals[i]]))
    ensures Complete(arrivals, handled, closed + dropped, if arrivals[i].Fault? then Failed else HungUp)
  {
    EndsHere(arrivals, i);
    assert arrivals[..i + 1] == arrivals[..i] + [arrivals[i]];
    RecordsConcat(arrivals[..i], [arrivals[i]]);
    AttachmentsConcat(Records(arrivals[..i]), Records([arrivals[i]]));
  }

  lemma CompleteAtExhaustion(arrivals: seq<Arrival>, handled: seq<Delivery>, closed: seq<Description>)
    requires forall j :: 0 <= j < |arrivals| ==> !Ends(arrivals[j])
    requires Accounts(Records(arrivals), handled, closed)
    ensures Complete(arrivals, handled, closed, Waiting)
  {
    NeverEnds(arrivals);
  }

  /** A turn of the loop, with what it makes of the calls and descriptors accounted for so far. */
  method LoopTurn(buf: array<Byte>, arrivals: seq<Arrival>, i: nat, handled: seq<Delivery>, closed: seq<Description>,
                  marks: seq<Byte>)
    returns (handledNow: seq<Delivery>, closedNow: seq<Description>, on: bool)
    requires buf.Length == MAX_MESSAGE_SIZE && i < |arrivals|
    requires (forall j :: 0 <= j < i ==> !Ends(arrivals[j])) && Accounts(Records(arrivals[..i]), handled, closed)
    modifies buf
    ensures on <==> !Ends(arrivals[i])
    ensures on ==> Accounts(Records(arrivals[..i + 1]), handledNow, closedNow)
    ensures !on ==> Complete(arrivals, handledNow, closedNow, if arrivals[i].Fault? then Failed else HungUp)
  {
    var call, dropped;
    call, dropped, on := TakeArrival(buf, arrivals[i], marks);
    handledNow, closedNow := handled + call, closed + dropped;
    if on {
      AccountsMore(arrivals, i, handled, closed, call, dropped);
    } else {
      CompleteAtEnd(arrivals, i, handled, closed, dropped);
      assert handledNow == handled;
    }
  }

  /** `recv_loop` over whatever arrives, with a handler that overwrites its slice with
      `handler(call)` on each call. What is handed over is byte-exact however the buffer was left. */
  method RecvLoop(arrivals: seq<Arrival>, handler: nat -> seq<Byte>)
    returns (handled: seq<Delivery>, closed: seq<Description>, ending: Ending)
    ensures Complete(arrivals, handled, closed, ending)
  {
    var buf := new Byte[MAX_MESSAGE_SIZE];
    handled, closed := [], [];
    for i := 0 to |arrivals|
      invariant forall j :: 0 <= j < i ==> !Ends(arrivals[j])
      invariant Accounts(Records(arrivals[..i]), handled, closed)
    {
      var on;
      handled, closed, on := LoopTurn(buf, arrivals, i, handled, closed, handler(|handled|));
      if !on {
        return handled, closed, if arrivals[i].Fault? then Failed else HungUp;
      }
    }
    assert arrivals[..|arrivals|] == arrivals;
    CompleteAtExhaustion(arrivals, handled, closed);
    ending := Waiting;
  }
}
