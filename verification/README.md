# Verification of strong-ipc's concurrent protocols

This project models, in Dafny, the four concurrent state machines a capability crate over
`SOCK_SEQPACKET` sockets rests on, and proves what its comments, documentation and tests promise of
them, over every interleaving of any number of threads.

- **The two-tier send** of one `Ref` (`SendModel`, `SendInvariant`, `SendOrder`, `SenderOrder`,
  `SendFates`, `SendLoss`, `SendProgress`, `SendBacklog`, `SendTrace`, `SendCode`): the
  inline `sendmsg`, and the lazily built outbox whose drain task takes over while anything is pending.
- **Capabilities and the registry that interns them** (`Capabilities`, `CapabilityInvariant`,
  `RefCounts`, `CapabilityCode`, `Keying`): `REFS`, keyed by an inode the kernel may reissue, with holders dying
  while others intern.
- **Nodes** (`Nodes`, `NodeInvariant`, `NodeLifetime`, `LocalHandlers`, `NodeTrace`, `NodeCode`,
  `Death`): the task that owns the receiving end, how and in which order it lets go, `to_service`, the death
  latch, and the registry of local handlers.
- **The receive loop** (`ReceiveLoop`) over one reused buffer, joined to the send in `EndToEnd`.

Each protocol is a transition system: a `State`, an `Event` for every atomic action (an atomic load
or update, a `OnceLock` access, a channel operation, a map operation under a shard lock, a system
call, the drop of one field), and `Step`, which leaves the state alone when the event is not
enabled, so that every sequence of events is a schedule. Theorems quantify over all schedules.
Where the source changes state step by step there is also a class (`SendCode.Endpoint`,
`CapabilityCode.Process`, `Death.Latch`, `NodeCode.Host`) whose methods are the source's functions.
Its ghost `trace` is the schedule carried out so far and `Valid()` says that the fields are what
that schedule leads to; between any two atomic actions a method lets the others run arbitrarily
(`Interfere`). The contracts account for the schedule: it went on by the method's own steps, each of
which could be taken then and was answered as the method's parameters say, by what others were asked
to do, and by nothing else. So what is proved of schedules holds of the methods, and a method cannot
make up an event that would excuse its answer. Where nobody else does anything the contracts also say
outright what the call comes to.

## What is assumed of the environment

- The socket is a bounded FIFO of records (`SOCK_SEQPACKET`, POSIX.1-2017 System Interfaces section
  2.10.6). A send is accepted, or would block, or fails. It would block only while some record is
  unread, and it fails exactly when the receiving end is closed or the descriptors do not fit in one
  control message (`SendModel.KernelMay`). A hangup is read only after all queued records.
- An inode identifies at most one open socket; once the last descriptor is closed it may be reissued
  at once, to any socket.
- A tokio mpsc channel is a FIFO of `DEPTH` slots that queued messages and reserved permits share;
  a closed channel is reported before a full one; what is queued is still received after the last
  sender is dropped; a permit used after the receiver is dropped loses its message.
- `notify_waiters` wakes those registered with the `Notify` at that moment, and no others.
- Atomic operations are interleaved, that is, sequentially consistent.

## Where the code and its words differ

- A message with more than `MAX_FDS` descriptors is accepted with `Ok` and its send then fails in the
  drain, which stops (`src/capability.rs:489-491`, `src/outbox.rs:121-126`). So, with the peer there:
  the message itself can be overtaken (`SendOrder.FifoExactly`); the peer looks closed
  (`SendFates.HonestExactly`); another caller's correctly sized message, whatever it is, can be accepted
  and then lost behind it (`SendLoss.LossExactly`), which in any state has happened exactly to what the
  stopped drain left behind (`SendLoss.LostExactly`); and the fast path can be shut for good, as the
  third point says. A sequential sender's order survives all of it (`SenderOrder.SenderPrefix`).
- `src/capability.rs:441-445` says that `send` can only report a peer that is gone, but it also reports
  `Closed` when the outbox cannot be built, at the descriptor limit for one (`src/capability.rs:503-506`).
  In every run a call told `Closed` has one of three causes: the peer is gone, an oversized message has
  failed in the drain, or that call's own build failed (`SendFates.ClosedHasCause`); and either of the
  last two can happen with the peer there (`SendFates.HonestExactly`, `SendFates.FailedBuildLooksClosed`).
- `src/outbox.rs:122-124` says the count is released on an error too, since a raised one would wedge the
  fast path. It is released for the message that failed, not for those queued behind it: they stay
  counted, as does a permit used later (`stranded` in `SendFates.PendingExact`). With nobody mid-push,
  the fast path can ever reopen if and only if no message that cannot be sent has, or has left
  stranded, another one behind it (`SendBacklog.ReopensExactly`); otherwise `pending` is raised for ever
  (`SendBacklog.BlockedAfter`), and once the drain has stopped every later call is told `Closed`
  (`SendFates.LaterCallsAreClosed`).
- `src/outbox.rs:63-66` says that what is queued when the last `Ref` goes is still drained. That is so
  of what is ahead of the first oversized message (`SendBacklog.LastRefDropped`), hence of the whole
  backlog if and only if the drain has not failed and all of it can be sent
  (`SendBacklog.DrainsOutExactly`); what is behind is lost with no caller left to be told.
- `src/capability.rs:219` and `293-297` speak of `BoundNode` and of two connects being two sockets.
  No such type exists in `src`, and the accept loop hands out the same `Ref` to every connection
  (`src/capability.rs:170-173`). Recognition is proved of sockets, which is what the code does.
- `src/death.rs:53-57` says the death is recorded however the task ends. It is, but a task aborted
  before its first poll may record it before its socket is closed:
  `NodeLifetime.DisagreementExactly` says when the two answers can differ.
- `src/local.rs:55-60` says the filed address keeps a late unfile off somebody else's entry. It does
  unless the two nodes were filed at the same address, by sharing the handler or because its
  allocation was reused: `LocalHandlers.FoundExactly` and `LocalHandlers.SharedHandlerRobs`.
  And an entry outlives its socket until the loop is dropped, so a reissued inode can lead to the
  wrong handler: `LocalHandlers.RightNodeExactly` and `LocalHandlers.StaleHandler`.

`Call.seen`, `accepted`, `failed` and `stranded` in `SendModel` are logs kept for the statements; no
step depends on them.

## Model

| member | source | states |
|---|---|---|
| `SendInvariant.Reachable` | src/outbox.rs:29-37 | Every schedule keeps the whole invariant: one outbox is ever used, `pending` and permits are exact, every accepted message is in exactly one place, and a caller cleared for the inline path has everything accepted before it began on the wire or failed |
| `SendOrder.RealTimeFifo` | src/capability.rs:486-508 | If `Ok` was returned for one message before another call began, the other message never reaches the wire first, whichever paths the two took and whoever else sends |
| `SendOrder.FifoExactly` | src/capability.rs:489-491 | Real-time order can be broken for a message of legal size in some schedule if and only if it has more than `MAX_FDS` descriptors |
| `SendOrder.OversizedIsOvertaken` | src/outbox.rs:121-126 | The concrete schedule in which an oversized message is accepted, fails in the drain, and a later one goes inline past it |
| `SendOrder.LaterAfter` | src/outbox.rs:29-36 | No schedule undoes an acceptance, the wire, an installed outbox, a closed peer, a returned answer or the message a call was given |
| `SenderOrder.SenderPrefix` | src/capability.rs:447-449 | What a sender with one call at a time has on the wire is a prefix of what was accepted from it, less its own oversized messages, whatever anybody else sends; while nothing has failed the rest is queued behind it in order |
| `SenderOrder.FittingSenderPrefix` | src/capability.rs:447-449 | So if nothing oversized was accepted from that sender, it is a prefix of all that was, oversized messages of others or refused ones notwithstanding |
| `SenderOrder.BehindIsPrefix` | src/outbox.rs:30-36 | If every call's message has everything of the sender's that the call had seen ahead of it, the sender's messages are a prefix of what was accepted from it |
| `SenderOrder.NothingQueued` | src/outbox.rs:70-76 | When a sequential sender's call is cleared for the inline path none of its messages is queued or held by the drain |
| `SenderOrder.OnceAccepted` | src/capability.rs:479-508 | No message is accepted twice |
| `EndToEnd.HandledIsWirePrefix` | src/node.rs:208-225 | What the handler is called with is exactly a prefix of what the peer has read of the wire, and all of it while the loop goes on |
| `EndToEnd.HandledInOrder` | src/node.rs:208-225 | Of the handler's calls, those from one sequential sender among many are a prefix of what that sender was told was accepted, less its own oversized messages, byte for byte and descriptor for descriptor |
| `EndToEnd.TaskHandlesInOrder` | src/node.rs:70-77 | The same of the calls a node's task makes, however far it has got and however it ended |
| `EndToEnd.OneSenderEndToEnd` | src/capability.rs:479-508 | With one sequential sender the sequence of handler calls is a prefix of the accepted messages that are not oversized, so of all of them if none is, whatever mix of inline and queued paths was taken |
| `EndToEnd.AllHandled` | src/outbox.rs:110-128 | And it is the whole of the accepted sequence once nothing has failed or is queued and everything on the wire was read |
| `EndToEnd.HangupHandlesEverything` | src/node.rs:209-212 | If a node's task ended with a hangup its handler was called with everything that ever reached the wire, in order; and with exactly what was accepted from a sole sequential sender, if nothing failed or is in line |
| `SendFates.Conservation` | src/capability.rs:450-508 | At all times an accepted message is in exactly one place and unchanged, and one that was returned, cancelled or is still with its call is nowhere else |
| `SendFates.NothingLost` | src/outbox.rs:30-36 | If nothing oversized was accepted and the peer is alive an accepted message is on the wire or in line exactly once, and on the wire once `pending` is zero |
| `SendLoss.LostExactly` | src/outbox.rs:115-127 | With the peer open, an accepted message of legal size is neither on the wire nor in line if and only if a stopped drain left it behind, and then an oversized message had failed |
| `SendLoss.LossExactly` | src/capability.rs:489-491 | Any caller's message of legal size can be accepted and lost with the peer open if and only if the one message allowed to be oversized is |
| `SendLoss.OversizedLosesOthers` | src/outbox.rs:121-126 | The concrete schedule: the oversized message is queued, the other behind it, the drain fails and stops |
| `SendFates.AnswerStands` | src/capability.rs:474-478 | A call that has returned keeps its message and its answer for ever: an error's message is the caller's own |
| `SendFates.PendingExact` | src/outbox.rs:30-36 | `pending` is exactly the queue, plus one until the drain's decrement, plus callers between claim and outcome, plus what a stopped drain stranded; it never underflows, is at most `DEPTH` + 1 plus the callers mid-push, and at zero everything accepted is on the wire or was reported failed |
| `SendFates.OneOutbox` | src/capability.rs:86-98 | However many callers build at once one outbox is installed for good and every caller uses it; a losing outbox stays empty and its drain never receives or sends |
| `SendFates.LoserRetires` | src/capability.rs:91-97 | An outbox that is not installed, and that nobody is about to install, has lost its sender: in every schedule from there its drain can end at once until it does, and ends with that one step |
| `SendFates.ClosedHasCause` | src/capability.rs:498-507 | In every run whatever, a call is told `Closed` only if the peer is gone, or an oversized message has failed in the drain, or that same call's attempt to build an outbox failed |
| `SendFates.HonestClosed` | src/capability.rs:498-506 | If no oversized message was accepted and the call did not itself fail to build an outbox, `Closed` is returned only if the peer is gone |
| `SendFates.HonestExactly` | src/capability.rs:489-506 | With one message that may be oversized among sendable ones, a call can report `Closed` while the peer is open if and only if that message has more than `MAX_FDS` descriptors or a build may fail |
| `SendFates.FailedBuildLooksClosed` | src/capability.rs:503-506 | The concrete schedule: the socket is full, no outbox can be built, and a sendable message comes back `Closed` with the peer there |
| `SendFates.FullMeansFull` | src/outbox.rs:84-92 | `Full` is answered, and `send` parks, only if the call's own push found all `DEPTH` slots taken and the drain still there |
| `SendFates.SendNeverFull` | src/capability.rs:441-445 | `send` never answers `Full` |
| `SendFates.LaterCallsAreClosed` | src/capability.rs:498-507 | Once the drain has stopped, behind a closed peer or with messages left behind it, every later call that returns returns `Closed`, or `TooLarge` if the payload is |
| `SendProgress.TrySendNeverBlocks` | src/capability.rs:465-469 | `try_send` takes at most thirteen steps of its own whatever the others do, and until it returns one of them is always enabled |
| `SendProgress.NextStepEnabled` | src/outbox.rs:101-108 | A call that has not returned has a step to take unless it is a `send` parked while every slot is taken and the drain is there |
| `SendProgress.CancelIsClean` | src/outbox.rs:96-108 | A `send` dropped while it waits, at any moment, gives back the slot it may have been granted, and leaves `pending`, every queue, the wire and every other call as they are |
| `SendProgress.CancelUndoesGrant` | src/outbox.rs:96-104 | A wait granted a slot and dropped before anybody else moves leaves everything but the call itself exactly as before the grant |
| `SendBacklog.ReopensExactly` | src/outbox.rs:121-126 | From any reachable state with nobody mid-push, some schedule of anything brings `pending` to zero if and only if no message that cannot be sent, oversized or with the peer closed, has another queued behind it or has left one stranded; and then drain steps alone do |
| `SendBacklog.BlockedAfter` | src/outbox.rs:121-126 | Once such a message has something behind it, `pending` is above zero after every schedule |
| `SendBacklog.FastPathReopens` | src/outbox.rs:121-126 | From any reachable state with nobody mid-push and nothing behind a message that cannot be sent, every schedule of drain and peer steps brings `pending` to zero after exactly as many drain steps as the backlog needs, at most 3 * `DEPTH` + 2 |
| `SendBacklog.WorkCanAdvance` | src/outbox.rs:115-127 | While there is a backlog to work off the drain has a step that advances it, whatever is in line and whether or not the peer is there, and once the peer has read everything the kernel cannot make it wait |
| `SendBacklog.CatchUp` | src/outbox.rs:110-128 | If nothing is behind a message that cannot be sent and nobody is mid-push, there is a schedule of exactly that many steps that reopens the fast path |
| `SendBacklog.LastRefDropped` | src/outbox.rs:63-66 | After the last `Ref` is dropped, whatever the backlog holds and in every schedule in which the peer stays: what is ahead of the first oversized message moves onto the wire in queue order and nothing else does; it is all there once the drain has taken as many steps as it needs, or is over; until it is over it has a step to take |
| `SendBacklog.BacklogIsDelivered` | src/outbox.rs:63-66 | And if the peer keeps reading and the drain keeps being run, all that is ahead of the first oversized message reaches the wire and the drain then ends, in a number of rounds bounded by the backlog |
| `SendBacklog.DrainsOutExactly` | src/outbox.rs:63-66 | After the last `Ref` is dropped, the whole backlog can reach the wire and the drain end without an error, in any schedule at all, if and only if the drain has not failed, and the peer is open and nothing oversized if anything is in line |
| `SendBacklog.DrainsOut` | src/outbox.rs:110-128 | From any such state there is a schedule of at most one step more than the backlog needs after which the drain is over and everything ahead of the first oversized message is on the wire |
| `SendBacklog.DueIsAll` | src/outbox.rs:63-66 | What is ahead of the first oversized message is the whole backlog exactly if the drain has not failed and everything in line can be sent |
| `SendCode.Endpoint.TrySend` | src/capability.rs:479-508 | `try_send` as a method: one new call in the schedule, answered as told; `TooLarge` exactly for oversized payloads, an error carries the caller's own message, and if an outbox can be built `Closed` means that the peer is gone or an oversized message failed. With nobody else about: straight onto the wire if nothing is pending and the socket has room; otherwise one message more in the queue, unless there is none and none can be built, its drain is gone, or it is full |
| `SendCode.Endpoint.TryInline` | src/capability.rs:488-502 | The first tier returns `Ok` or `Closed`, or leaves the message for the queue; with nobody else about exactly if something is pending, the message is oversized or the socket is full |
| `SendCode.Endpoint.CheckBacklog` | src/capability.rs:488-491 | The fast path is open only for a message that fits one control message with `pending` read as zero, and with nobody else about exactly then; otherwise the call queues |
| `SendCode.Endpoint.FallBack` | src/capability.rs:503-507 | The second tier: get or build the outbox and push, or `Closed` with the message back; with nobody else about the answer and what is left in the queue follow from what was there |
| `SendCode.Endpoint.GetOrBuild` | src/capability.rs:86-98 | The outbox a caller leaves with is the installed one; `None` only if none can be built, and with nobody else about exactly if there was none either |
| `SendCode.Endpoint.SetAndGet` | src/capability.rs:91-97 | The outbox used is one's own exactly if none was installed before; otherwise one's own loses its sender |
| `SendCode.Endpoint.IsBackedUp` | src/outbox.rs:74-76 | Reports whether `pending` was nonzero, and the call's next step follows from it |
| `SendCode.Endpoint.SendNow` | src/wire.rs:218-260 | One `sendmsg`: accepted puts exactly this message on the wire and changes nothing else, would-block, exactly if there is no room, leaves it with the caller, failure means closed or oversized |
| `SendCode.Endpoint.PushMessage` | src/outbox.rs:80-94 | `push`: the answer is `Ok`, `Full` or `Closed`, and a refused message is the caller's own; with nobody else about `pending` and the queue are one longer after `Ok` and as before after a refusal |
| `SendCode.Endpoint.ChannelTrySend` | src/outbox.rs:84-92 | The channel refuses with `Closed` exactly if its receiver is gone, with `Full` exactly if open without a slot, and otherwise appends |
| `SendCode.Endpoint.Send` | src/capability.rs:450-463 | `send`: never `Full`; pending only if it was parked through every poll and none of them found a slot; `Closed` as for `try_send` |
| `SendCode.Endpoint.AwaitRoom` | src/capability.rs:457-462 | After `Full` the outbox is there; the wait ends in `Ok` or `Closed`, or has been going on ever since, with every slot taken at every poll |
| `SendCode.Endpoint.OutboxSend` | src/outbox.rs:101-108 | The slot is reserved before it is counted; still pending only if every poll found an open channel without a slot |
| `SendCode.Endpoint.PollReserve` | src/outbox.rs:102-104 | A poll of `reserve` resolves exactly if the receiver is gone or a slot is free, and changes nothing otherwise |
| `SendCode.Endpoint.ReactiveSend` | src/wire.rs:389-399 | Retries until the message is on the wire or its send failed, on the first attempt that does not find the socket full; still waiting only if every attempt did |
| `SendCode.Endpoint.DrainReceiveAction` | src/outbox.rs:116-118 | Takes the front of the queue, or ends when the channel is closed and empty |
| `SendCode.Endpoint.FinishTurn` | src/outbox.rs:125-126 | The claim is released after the send, and only a failed send stops the drain |
| `SendCode.Endpoint.DrainTurn` | src/outbox.rs:115-127 | One turn of the drain sees the front of the queue onto the wire, or holds it because every attempt found the socket full, or fails it and stops, or ends on an empty closed channel |
| `SendCode.Endpoint.DrainLoop` | src/outbox.rs:110-128 | Turn after turn, each beginning where the last one ended, the drain took the front of the queue and put it on the wire, in wire order, or found the queue empty at that very moment; every step of the schedule belongs to a turn |
| `SendCode.CodeIsFifo` | src/capability.rs:479-508 | Real-time order said of the running methods |
| `SendTrace.ToldBuilds` | src/capability.rs:503-506 | A call that was to be able to build an outbox never fails to, whatever else happens |
| `ReceiveLoop.RecvLoop` | src/node.rs:204-226 | Over any stream and any buffer-scribbling handler the calls are exactly the records before the first end, in order and byte-exact, less those too large; every descriptor read is handed over or closed exactly once; the loop fails exactly on an error |
| `ReceiveLoop.TakeArrival` | src/node.rs:208-225 | One turn: which arrivals end the loop, and what becomes of a record's bytes and descriptors |
| `ReceiveLoop.RecvNow` | src/wire.rs:282-316 | The buffer gets as much of the record as fits, the rest of it is untouched, and the length reported is the true one |
| `ReceiveLoop.BeforeEnd` | src/node.rs:209-212 | The arrivals before the first hangup, empty record or error |
| `Death.NoLostWakeup` | src/death.rs:33-51 | In no schedule is a waiter left parked after `declare` has completed, and none returns before the flag is set |
| `Death.WakeupExactly` | src/death.rs:35-38 | No waiter is ever stranded if and only if registration precedes the check and the store precedes the notification |
| `Death.WaitersReturn` | src/death.rs:39-46 | Once the death is declared every waiter can step and each step brings it nearer to returning |
| `Death.DeadStays` | src/death.rs:21 | Dead is never taken back |
| `Death.Latch.Wait` | src/death.rs:39-46 | `wait` resolves at its check exactly if the death had been declared by then, and otherwise at the first poll that finds it notified; a future still pending was not notified at its last poll, so the death is not fully declared |
| `Death.Latch.Declare` | src/death.rs:48-51 | The flag is set first and the waiters woken last; when `declare` returns every parked waiter has been |
| `CapabilityInvariant.Reachable` | src/capability.rs:31-45 | Every schedule of holders keeps the kernel's descriptor counts, ownership and the registry consistent |
| `CapabilityInvariant.Canonical` | src/capability.rs:287-302 | Two live filed `Ref`s share a `RefInner` exactly when they send on the same socket |
| `CapabilityInvariant.NoStaleEntry` | src/capability.rs:136-151 | Every entry of `REFS` is alive or has yet to unfile itself, with its socket still open under that identity, so an identity the kernel could reissue is never in the registry |
| `CapabilityInvariant.LiveStaysFiled` | src/capability.rs:144-150 | No step of anybody's takes a live `Ref`'s entry away |
| `CapabilityInvariant.InternIsFaithful` | src/capability.rs:256-285 | Interning yields a live `Ref` on the very socket that arrived; on a hit the registry is unchanged and closing the redundant descriptor leaves the socket open; on a miss or a dying entry the new `Ref` is the entry |
| `CapabilityInvariant.LiveSendsOnOpenSocket` | src/capability.rs:52-55 | Whoever is alive has an open socket to send on |
| `CapabilityInvariant.OpenExactlyWhileHeld` | src/message.rs:19-33 | A socket is open exactly while a `RefInner`, an attached, in-flight or received descriptor, or a drain's or death watch's duplicate names it |
| `CapabilityInvariant.ShutForGood` | src/capability.rs:25-28 | A socket once closed is never open again, whoever reuses its inode |
| `CapabilityInvariant.SameSocket` | src/capability.rs:52-55 | What a `RefInner` sends on never changes |
| `CapabilityCode.Process.FromFd` | src/capability.rs:256-285 | `from_fd` trades a descriptor for a live `Ref` on its socket, filed exactly if the socket could be identified, by one lookup; the descriptor ends up that `Ref`'s own or closed, and everything else the holder has in hand is as it was, whatever others do. With nobody else about: one reference more to the `RefInner` filed and alive under the identity, or else a new one with one reference, and nothing else changes |
| `CapabilityCode.Process.InternAction` | src/capability.rs:266-284 | The decision under the shard lock: recognised exactly if the entry under the identity is alive, which takes one reference more; otherwise a new `RefInner` is filed there |
| `CapabilityCode.Process.ReleaseRef` | src/capability.rs:136-152 | Dropping a `Ref` takes exactly one reference; the last one unfiles the `RefInner`, then closes it, and it is gone; with nobody else about nothing else changes |
| `CapabilityCode.Process.UnfileAction` | src/capability.rs:150 | `remove_if` takes the entry under the identity exactly if it is dead, and no other |
| `CapabilityCode.Process.RunDrop` | src/capability.rs:136-152 | The `RefInner` is unfiled while its descriptor is open and gone at the end, and the holder's other references still lead where they did |
| `CapabilityCode.ForeignStep` | src/capability.rs:136-151 | No step of another holder's disturbs references, descriptors or drops in hand |
| `CapabilityCode.HoldAndLetGo` | tests/identity.rs:167-191 | A recognised `Ref` counts like any other: the `RefInner` outlives the first of two references to it and is gone, unfiled and closed, with the second |
| `RefCounts.StrongExactly` | src/capability.rs:266-285 | In every run a `RefInner`'s strong count is the references handed out to it, by interning and cloning, less those dropped, and it is alive exactly while that is not zero |
| `RefCounts.LastDropEnds` | src/capability.rs:136-152 | Once as many references have been dropped as were handed out: in every schedule none is handed out again, the `RefInner`'s own `drop` always has a step to take until it is gone, which is after at most two, and then nothing is filed for it and it owns no descriptor |
| `Keying.Tally` | tests/identity.rs:130-150 | A map keyed by `Ref` over any arrivals has one entry per socket that arrived, with the count a map keyed by socket has; each arrival was looked at straight after the last was settled and what others did in between, and received, recognised and tallied if it was in flight; with nobody else about every one that was on its way is |
| `Keying.EveryoneLands` | tests/identity.rs:139-145 | With nobody else about, dealing with one arrival disturbs no other, so the sockets tallied are those that were on their way, in order |
| `Keying.AgreementIsOneToOne` | src/capability.rs:340-346 | Keys and sockets are in one-to-one correspondence with equal counts |
| `Keying.KeysAreDistinct` | src/capability.rs:329-337 | Live filed `Ref`s on different sockets are different keys |
| `Keying.KeyIsKnown` | src/capability.rs:342-346 | A `Ref` for a socket that arrived before is a key already |
| `Keying.AgreesKept` | src/capability.rs:348-352 | What others do meanwhile leaves the map right |
| `Keying.AgreesAfter` | tests/identity.rs:139-145 | One more arrival adds one to its socket's count, or a key with count one |
| `Keying.Recognise` | tests/identity.rs:143-145 | A descriptor in flight is received and becomes a reference to the key for its socket, by one lookup |
| `Keying.Settle` | tests/identity.rs:144 | A new key is kept and nothing else happens; the second `Ref` of a known one is dropped; either way the count is one more |
| `NodeInvariant.Always` | src/node.rs:53-87 | Every schedule of nodes, handles and holders keeps the node invariant: reasons for ending hold true, guards go in order, every local entry is some node's |
| `NodeLifetime.ServesWhileHeld` | src/node.rs:140-147 | While anybody holds a descriptor for its socket only an error or a panic can have ended a node whose handle was not dropped and that was sent no empty record |
| `NodeLifetime.HangupIsFinal` | src/node.rs:91-97 | A loop that ended with a hangup had read every record ever delivered, and nobody held its socket then or ever will |
| `Nodes.DropOrder` | src/node.rs:70-77 | A started task drops the last declared of what it still holds, so it lets its socket go first, then its local entry, then its tombstone; an unstarted one drops them in any order |
| `NodeLifetime.AbortableExactly` | src/node.rs:146-151 | A task still going can come to be aborted if and only if its handle was not given up |
| `NodeLifetime.ToServiceChangesNothing` | src/node.rs:165-170 | Whatever happens short of using the handle happens exactly alike whether it was kept or given up |
| `NodeLifetime.DeathAgreement` | src/death.rs:53-60 | However a task that got to run ends, once `Node::is_dead` says so every `Ref` to it reports dead, and both go on saying so |
| `NodeLifetime.DisagreementExactly` | src/node.rs:67-78 | The two answers can come to disagree if and only if the task has not been polled and its handle was not given up |
| `NodeLifetime.AnswersStand` | src/capability.rs:392-395 | Neither `Node::is_dead` nor a `Ref`'s answer is ever taken back |
| `NodeLifetime.DiesOnceUnreachable` | src/node.rs:40-42 | Once the last holder is gone, or the task is over for any reason, then in every schedule the node's own task has a step to take until nothing of the node is left, which is after at most five steps of its own more than there are unread records |
| `NodeCode.Host.NewRaw` | src/node.rs:62-86 | The handler is filed under the `Ref`'s identity before the task exists, and the task starts unpolled with its abort armed |
| `NodeCode.Host.RunTask` | src/node.rs:70-77 | The async block: turn after turn, each beginning where the last ended, the handler is called with the delivered records taken, in order, less those too large; if it ended, it was for the reason its last turn met, and the socket, the entry and the tombstone were let go in that order |
| `NodeCode.Host.Turn` | src/node.rs:208-225 | One turn: a record that fits is handed over and the loop goes on unless the handler panics, one too large is only taken, an empty one ends the loop; an error, an abort once asked for, and no record with nobody to send one end it too; otherwise nothing happens |
| `NodeTrace.FineRun` | src/node.rs:204-226 | With nobody else about and nothing special met, the turns taken have handed over the waiting records in order, one a turn, and the loop is over exactly if there was a turn to spare and nobody could send any more |
| `NodeCode.Host.DropUnpolled` | src/node.rs:67-78 | A task aborted unpolled lets everything go in whatever order, each thing once, and does nothing else |
| `NodeCode.Host.GiveUp` | src/node.rs:165-170 | `to_service` disarms the abort and does nothing else |
| `NodeCode.Host.DropHandle` | src/node.rs:32-36 | Dropping a `Node` asks for its task's abort and changes nothing else |
| `LocalHandlers.UnfileSpares` | src/local.rs:82-88 | An unfile takes everything its own node had filed, and of others' entries exactly one with the same identity and address; if that other node can be reached, the one unfiling cannot |
| `NodeCode.Host.Lookup` | src/local.rs:91-98 | Finds the handler filed under the identity if something keeps it allocated; what is found belongs to a node still holding its entry |
| `LocalHandlers.RefFindsItsNode` | src/capability.rs:310-327 | With distinct addresses every live `Ref` that leads to a node whose task goes on finds that node's handler |
| `LocalHandlers.FoundExactly` | src/local.rs:55-60 | Over any run a reachable node that holds its entry is found under its identity if and only if no other node with the same identity and address has unfiled since |
| `LocalHandlers.AllFoundAfter` | src/local.rs:68-88 | If no node is created with an address some entry holds, every reachable node holding an entry is always found, inode reuse included |
| `LocalHandlers.NobodyElseFiles` | src/local.rs:75-77 | The plain `insert` never displaces the entry of a node that can be reached |
| `LocalHandlers.SharedHandlerRobs` | src/local.rs:82-88 | The concrete schedule in which a handler shared by two nodes lets the first's late unfile take the second's entry |
| `LocalHandlers.RightNodeExactly` | src/capability.rs:310-313 | What a live `Ref` finds is the node it sends to if and only if the node that filed the entry can be reached |
| `LocalHandlers.StaleHandler` | src/local.rs:82-88 | The concrete schedule in which a socket given a dead node's inode leads to that node's handler |
| `LocalHandlers.GoneIsNotFound` | src/local.rs:17-20 | A node that has unfiled itself is not found, unless another holds an entry under its identity |
| `LocalHandlers.KeptExactly` | src/local.rs:91-98 | A handler nobody else keeps is found under its identity exactly while its node's handle is kept or its task has its socket; an entry left behind after that leads nowhere, although it is still filed |
| `LocalHandlers.RegistryBounded` | src/local.rs:39-40 | There are never more entries than nodes that still hold one |

## Left out

- Memory orderings weaker than sequential consistency: the source uses relaxed atomics; the model interleaves them.
- Wrap-around of `pending`: it is an integer here, and `SendFates.PendingExact` bounds it far below the width of `usize`.
- Runtime shutdown: a drain, a receive loop or a latch's waiter is never dropped by its runtime, except for the abort a dropped `Node` asks for.
- Schedulers: that a runtime polls a ready task, and that a peer keeps reading, are hypotheses on schedules (`SendBacklog.FairRound`), not theorems; methods with a `polls`, `tries` or `plans` parameter run for a finite schedule and say what is true when it runs out.
- Order between overlapping calls, between processes, and between successive `RefInner`s of one socket: not promised by the code.
- `RefFsBinding`, `Ref::connect`, lock files and path binding: file-system operations with no exclusion invariant to keep.
- System calls, control-message layout, `AsyncFd` readiness, `Reactive::hangup` and `Ref::death_notification`: what the kernel and the reactor answer is a parameter of the events, under the assumptions above.
- Peer credentials: they are handed to the handler unchanged and affect nothing.
- Which record a descriptor in flight rides on: `Capabilities` keeps descriptors in flight and `ReceiveLoop` keeps records with their attachments, and the two are not tied together; `EndToEnd` ties records to the wire. A node whose own capability waits unread in its own inbox is not treated specially.
- LocalHandlers.RefFindsItsNode: the type test of the downcast is left out; every handler filed is taken to be of the type asked for.
- Keying.Tally: keys are `RefInner`s in a Dafny map; hashing by address is not modelled, nor is the reuse of a dead `RefInner`'s address, which a map that retains its keys rules out.
- Reading and raising the process's descriptor limit, error types and their conversions, and the example programs: none of them takes part in a protocol above, and each is a single library call or a relabelling of a value.
