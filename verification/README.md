# Tephra Node client: a verified model

The client multiplexes many requests over one socket. This project models that connection, the codec
under it and the event values above it, and proves what they keep.

* **The connection** (`src/connection.ts`, `src/util.ts`, `src/streams.ts`). JavaScript runs each turn to
  completion, so one turn is one atomic step: a call by the user, an abort or close, a resumed `await`, or
  a socket event. `ConnState.dfy` gives the effect of each turn as a total function on a `State`; a run is
  any sequence of events, in any interleaving, from a connection that has just sent its hello. A promise is
  a ticket, granted in one turn and picked up in some later one. `Conn.dfy` is the same connection as a
  class that updates its fields, its semaphores, gate, decoder and streams in place, with the source's
  loops; every method is proved to have the effect of its step function, and `Connection.Drive` carries
  that over whole runs, so the theorems of `ConnTheorems.dfy` hold of the object.
* **The codec** (`src/proto/wire.ts`, `src/proto/messages.ts`, `src/framing.ts`). `Fields.dfy` states the
  message grammar once, for every shape of message; `Messages.dfy` says which fields each record has and
  how fields fold into a record. `Writer`, `Reader`, the encoders and decoders and `FrameDecoder` are the
  loops of the source, proved against that grammar.
* **Canonical events** (`src/types.ts`). Validation, the sorted tag set, and the UTF-8 length counter.

## How it fits together

| file | what it holds |
|---|---|
| `Base.dfy`, `Varint.dfy`, `Fields.dfy` | bytes, varints, the message grammar and its inverse |
| `Messages.dfy`, `RoundTrip.dfy`, `WireFormat.dfy` | records, canonical forms, round trips, forward compatibility |
| `Writer.dfy`, `Reader.dfy`, `Encoders.dfy`, `Decoders.dfy` | the codec's code |
| `Framing.dfy`, `Sync.dfy`, `Streams.dfy`, `Errors.dfy`, `Canonical.dfy` | framing, semaphore and gate, sink and stream, error tags, events |
| `ConnState.dfy` | the connection as a state machine |
| `ConnInv.dfy` | the invariant every turn keeps: ids, settlement, permits, slots, writer, death, queues |
| `ConnOrder.dfy` | what no turn undoes |
| `ConnDemux.dfy`, `ConnInbound.dfy` | projection of the routed responses, and the inbound byte stream |
| `ConnProgress.dfy`, `ConnIdle.dfy` | sender progress, the bound on own turns, and what an idle connection holds, alive or dead |
| `ConnHistory.dfy` | what each cancel cancels, and what each consumer was given |
| `ConnWire.dfy`, `ConnDeath.dfy`, `ConnHello.dfy` | what is written first, total death, the hello first and sample runs |
| `ConnTheorems.dfy` | the results, over every run |
| `Conn.dfy` | the connection as a class |

`dafny verify dfyconfig.toml` checks the whole project. Read `ConnTheorems.dfy` first.

## Where the code and its words differ

The model follows the code.

* The committed schema (`proto/tephra/v1/tephra.proto:158-179`) has no hello and no hello acknowledgement;
  `src/proto/messages.ts` has both, and is the authority here.
* `FrameDecoder` says a hostile prefix can never make it allocate without bound. It holds less than
  `4 + maxFrameLen` bytes until an oversized header arrives, and every later chunk after that
  (`Framing.RetainedBound`), so it is bounded only if no header can be oversized
  (`Framing.MemoryIsBoundedExactly`).
* `Reader.varint` says it is for values known to fit 32 bits; it takes any length (`Varints.VarintReadable`).
  Decoders look at the field number, and for a known one never at the wire type (`Fields.WireTypeIgnored`).
* A header holds 32 bits and the frame limit is not held below that: bodies are recovered exactly when shorter
  than 2^32 (`Framing.ParseFramed`, `Framing.AnySplitYieldsTheBodies`, `ConnTheorems.OutboundEndToEnd`).
* `close` and the abort listener say they end iteration. When the cancel does not fit a frame they throw
  first, and the stream is closed but not ended: `ConnProgress.EndStreamExactly` gives the exact condition,
  `ConnProgress.CancelUnaryExactly` and `ConnProgress.AbortStreamExactly` those of the other two cancels,
  and `ConnTheorems.TinyFramesStrandAStream` a run. A cancel's body has at most 24 bytes
  (`WireFormat.CancelFits`), so a limit of 24 suffices.
* The empty bearer token is present in the record and absent on the wire (`WireFormat.EmptyTokenIsLost`).
* `utf8ByteLength` counts a high surrogate as four bytes and skips the next unit whatever it is.
  `Canonical.CountedExactly` gives the difference from the encoded length on every string, and when it is 0.
* Tag validation says an event never comes back as something its caller did not submit. It holds of well-formed
  names (`Canonical.SameBytesSameEvent`); lone surrogates are all encoded as U+FFFD, so accepted events can
  encode alike (`Canonical.LoneSurrogatesCollide`; `Canonical.EncodedAlikeExactly` says exactly when).
* `read` and `subscribe` do not look at `dead`, and `failConnection` drops entries without releasing their
  permits. A stream opened after death is failed when its sender gets a permit
  (`ConnTheorems.LateStreamIsTold`). If a permit was left, none is still open once the runtime has nothing
  to do; if all were stranded no sender ever gets one, and late streams hang
  (`ConnTheorems.LateStreamsFailExactly`; `ConnHello.AReadHangsAfterDeath` is a run).
* A cancel goes ahead of the queue, so it reaches the wire before the request it cancels whenever that has
  not been written yet (`ConnTheorems.CancelGoesFirstExactly`; `ConnHello.ACancelGoesFirst` is a run).
* A queue of depth 0 sends nothing but cancels (`ConnTheorems.NoSlotNothingSent`).

## Model

| member | source | states |
|---|---|---|
| `ConnTheorems.SettledExactlyOnce` | src/connection.ts:106-273 | In every reachable state: an issued call is in the table and unsettled, or out of it and settled exactly once; an issued stream is in the table and not ended, or out of it and ended; `onCancel` ran at most once; a watermark implies the end; and when every cancel fits a frame, closed is the same as ended |
| `ConnTheorems.SettledForGood` | src/connection.ts:524-580 | Whatever happens after a request left the table, it never re-enters, its promise is never settled again, and its stream keeps its items, outcome and watermark |
| `ConnTheorems.PermitsConserved` | src/connection.ts:170-273 | Free permits, permits granted and not yet picked up, permits owned by entries and permits stranded by death always add up to `maxInflightRequests`; none is stranded in life; nobody waits while one is free |
| `ConnTheorems.SlotsConserved` | src/connection.ts:276-330 | In life free slots, granted slots and the queue's length add up to `requestQueueDepth`, so the queue never exceeds it; in death nobody waits for a slot |
| `ConnTheorems.NoLostWakeUp` | src/connection.ts:303-330 | Whenever the writer is parked on the gate both queues are empty, no signal is stored and the connection lives; the gate has a waiter exactly then |
| `ConnTheorems.OutboundEndToEnd` | src/connection.ts:276-330 | The bytes written parse into exactly the bodies of the requests sent if and only if each body is shorter than 2^32, and each body decodes to its request: ordinary requests in queueing order and cancels in issue order, none lost or repeated; in life the rest of each is still in its queue, framed, in order |
| `ConnTheorems.AnyReaderSeesTheRequests` | src/framing.ts:57-75 | A peer that receives the written bytes in any chunks gets exactly those bodies, with nothing torn and no error, under the same condition and only then |
| `ConnTheorems.CancelGoesFirstExactly` | src/connection.ts:287-318 | Of a cancel and a request that both reach the wire the cancel comes first if and only if the request was unwritten while the cancel was queued and unwritten; so a cancel overtakes a queued request it cancels, on every continuation |
| `ConnTheorems.NoSlotNothingSent` | src/connection.ts:276-284 | With a queue of no slots no ordinary request is ever queued or written, on any run |
| `ConnTheorems.QueuedAsAsked` | src/connection.ts:185-187 | Every ordinary request queued is one that was asked, as it was asked, at most once per id; cancels carry fresh, increasing ids |
| `ConnTheorems.CancelsAreForTheAbandoned` | src/connection.ts:287-297 | In every run each cancel names a request that was asked, is not the hello and has left the table, and no request is cancelled twice |
| `ConnTheorems.InboundEndToEnd` | src/connection.ts:357-376 | While the connection lives the responses routed are the decoded frames of a one-shot parse of all bytes received, in order, whatever the chunks |
| `ConnTheorems.EveryResponseIsRouted` | src/connection.ts:357-376 | A server whose framed responses fit the limit and the 32-bit header has each routed once, in order, in canonical form |
| `ConnTheorems.DemultiplexingIsProjection` | src/connection.ts:357-512 | A stream took exactly the items of the responses routed to its id while it was in the table, in order, with the last one's watermark; all but the last let it go on, and a last one that does not ends it with its verdict, or, only where the cancel it calls for can be too long, with what the connection died of; a call heard at most one response, which settled it |
| `ConnTheorems.ConsumersGetTheProjection` | src/streams.ts:24-79 | For each stream of each reachable state: answer k of `next` is item k of the responses routed to its id, later answers are its outcome, the queue is the rest, and a call is parked only when everything so far was taken |
| `ConnTheorems.DeathIsFinal` | src/connection.ts:556-580 | Once dead, on every continuation the first cause stays, no queue changes, no byte is written, nobody waits for a slot, and only reads and subscriptions opened later can be in the table |
| `ConnTheorems.DeathRefuses` | src/connection.ts:142-144 | Once dead a later failure changes nothing at all, and a unary call is refused with the first cause, registering nothing |
| `ConnTheorems.DeathTellsEveryone` | src/connection.ts:567-575 | Whatever the turn that kills the connection also routed, the table is empty after it and each request that was in it has ended: a call with its response, or else the cause of death; a stream with exactly the items it heard, and then the verdict of the response that ended it, or, if none did, the cause of death |
| `ConnTheorems.LateStreamsFailExactly` | src/connection.ts:560-580 | What becomes of streams opened after death: if fewer permits than the budget are stranded, a connection with no turn of its own left has an empty table; if all are, no sender is given a permit on any continuation, and every entry waits in line, unended |
| `ConnTheorems.LateStreamIsTold` | src/connection.ts:185-200 | A late stream whose sender is given a permit fails with the first cause of death and leaves the table |
| `ConnTheorems.EveryRequestHasItsPlace` | src/connection.ts:170-330 | A living connection with no turn of its own left has each entry (save a unary call aborted at once by a cancel that does not fit) written or queued as asked with a permit, in line for a slot while the queue is full, or in line for a permit while entries own them all; the writer is parked with both queues empty, or awaits a drain |
| `ConnTheorems.NothingForgotten` | src/connection.ts:185-227 | With a queue slot or more, when a living connection has no turn of its own left and awaits no drain, every entry has been written as asked and owns a permit, or waits in line while written requests use up the whole budget; both queues are empty and every cancel is on the wire |
| `ConnTheorems.OwnTurnsEnd` | src/connection.ts:303-330 | From any reachable state the runtime can take only boundedly many turns of its own before it must wait for the user or the socket: no livelock between senders and writer |
| `ConnTheorems.TinyFramesStrandAStream` | src/connection.ts:286-297 | Illustration: a run with a one-byte frame limit in which closing a read leaves it closed, not ended, and in the table |
| `ConnHello.HelloGoesFirst` | src/connection.ts:229-240 | If nothing was asked before a frame was written, the first request on the wire is the hello, on every continuation |
| `ConnHello.LeftAloneItSaysHello` | src/connection.ts:242-273 | Illustration, for every configuration with room for one request: three turns of its own make a new connection write exactly its framed hello, fall quiet, and wait for the answer |
| `ConnHello.ClosedItRejectsItsHello` | src/connection.ts:128-131 | Illustration, for every configuration: closed before an answer, a new connection is dead, its table empty, and its hello rejected with the close |
| `ConnHello.AReadHangsAfterDeath` | src/connection.ts:560-580 | Illustration, with a budget of one: closed while its hello owns the permit, the connection takes a later read into the table, unended, and no continuation ever grants a permit |
| `ConnHello.ACancelGoesFirst` | src/connection.ts:287-318 | Illustration: a call aborted after it was queued and before it was written has its cancel written first |
| `ConnProgress.EndStreamExactly` | src/streams.ts:131-150 | Closing or aborting an open stream ends its sink, and drops its entry, if and only if the cancel for it fits a frame or need not be sent |
| `ConnProgress.CancelUnaryExactly` | src/connection.ts:544-554 | Aborting a pending unary call rejects its promise and drops its entry if and only if the cancel can be sent; otherwise both stay |
| `ConnProgress.AbortStreamExactly` | src/connection.ts:506-512 | A protocol violation fails its stream and drops its entry if and only if the cancel can be sent; otherwise table and streams are untouched and the exception is the frame error of that cancel |
| `ConnProgress.OwnTurnsRunDry` | src/connection.ts:276-284 | Every continuation the runtime runs strictly lowers the effort left |
| `ConnProgress.OwnRunIsBounded` | src/connection.ts:303-330 | The length of a run of own turns plus the effort left after it never exceeds the effort before it |
| `ConnProgress.RunTracked` | src/connection.ts:170-284 | On every run, an entry whose sender is past the permit owns it and one whose sender is over has been queued, except a unary call aborted at once by a cancel that does not fit; and where cancels fit a frame, closed streams have ended |
| `ConnIdle.IdleMeansPlaced` | src/connection.ts:170-284 | The place of one entry of an idle living connection, from the invariants |
| `ConnIdle.IdleWriter` | src/connection.ts:303-330 | A living writer with no turn left is parked with both queues empty, or awaits a drain |
| `ConnIdle.LinesMeanFull` | src/util.ts:24-49 | Idle, a line for permits means they are all owned or stranded, and a line for slots that the queue is full |
| `ConnIdle.IdleDeathIsEmpty` | src/connection.ts:560-580 | Idle in death, an entry left in the table means that every permit is stranded |
| `ConnIdle.AllStranded` | src/connection.ts:567-568 | With every permit stranded no sender is ready, and each entry stands in the line for permits |
| `ConnIdle.LateStreamFails` | src/connection.ts:185-200 | The branch of a dead sender: its stream fails with the cause and its entry goes |
| `ConnWire.StepWrites` | src/connection.ts:276-330 | A turn writes nothing or the whole of both queues, cancels first; and only a sender resumed with a slot, in life, queues a request |
| `ConnWire.BatchLeads` | src/connection.ts:310-318 | A cancel not yet written comes before every ordinary request of the next batch |
| `ConnWire.RunLeads` | src/connection.ts:287-318 | Once a cancel leads a request on the wire it does so on every continuation |
| `ConnHistory.StepHistory` | src/connection.ts:287-554 | One turn keeps what cancels name and the order of every stream's answers |
| `ConnHistory.RunHistory` | src/connection.ts:90-580 | Every turn of every run keeps them |
| `ConnHistory.CancelsKept` | src/connection.ts:536-554 | A turn that cancels what it drops from the table, and a turn that cancels nothing, keep the targets distinct and out of the table |
| `ConnInbound.RouteIsLocal` | src/connection.ts:375-441 | Routing a frame leaves the entry, promise, stream and sender of every other request as they were, unless it is an unattributed error |
| `ConnInbound.RunInbound` | src/connection.ts:357-373 | Routed responses are the parse of the bytes received, kept by every turn of every run |
| `ConnInbound.RouteAllDecodes` | src/connection.ts:365-372 | If the connection survives a batch of frames, each was decoded and routed, in order |
| `ConnDeath.DeathIsTotal` | src/connection.ts:560-580 | Any turn after which a living connection is dead has emptied the table and told the cause to every entry that no response ended, including streams that took items in that very turn |
| `ConnDeath.FailTold` | src/connection.ts:560-575 | `failConnection` on a living connection tells its argument to every entry, and records it as the cause |
| `ConnDeath.ViolationExactly` | src/connection.ts:365-372 | A response that breaks the protocol of its stream fails it with the violation if and only if the cancel fits a frame; if not, the connection dies of that frame error and the stream is told so |
| `ConnDemux.MappedPointwise` | src/convert.ts:55-63 | A batch maps to one item per entry, in order, exactly when every entry has an event; otherwise it delivers nothing |
| `ConnDemux.RouteHeard` | src/connection.ts:375-503 | Routing one response keeps the projection, including when the cancel it provokes throws |
| `ConnDemux.ReactionRouted` | src/connection.ts:396-433 | The hello and unary switches agree with one table of which answer settles which call how |
| `ConnDemux.RunHeard` | src/connection.ts:357-512 | The projection holds on every run |
| `ConnDemux.SendCancelThrows` | src/connection.ts:287-297 | `sendCancel` throws only on a live connection with a frame limit below 24 bytes, and then a frame error |
| `ConnOrder.RunLater` | src/connection.ts:524-580 | From any state to any it leads to: histories only grow, ids do not return to the table, settled promises and ended streams do not change, and after death neither do the queues, the log or the cause |
| `ConnInv.RunCore` | src/connection.ts:90-580 | Every turn of every run keeps all groups of the invariant: ids, settlement, senders, permits, slots, writer, death, queues |
| `ConnInv.StepCore` | src/connection.ts:90-580 | One turn keeps them |
| `ConnInv.ConnectedCore` | src/connection.ts:67-84 | A connection whose hello was just sent satisfies them |
| `ConnInv.RunWriterCore` | src/connection.ts:303-330 | A turn of the writer keeps them, including a write that throws with the batch in hand |
| `ConnInv.WriteBatch` | src/connection.ts:310-322 | Writing the batch appends the frames of exactly the queued requests, cancels first, and empties both queues |
| `ConnInv.FailConnectionCore` | src/connection.ts:560-580 | Death keeps them: permits of dropped entries become stranded, slot waiters are woken without slots |
| `ConnInv.ResumePermitCore` | src/connection.ts:170-227 | A sender picking up its permit keeps them, whether its entry is gone, the connection is dead, the frame is too large, or it goes on to the queue |
| `ConnInv.ResumeSlotCore` | src/connection.ts:276-284 | A sender picking up its slot keeps them, in life and in death |
| `ConnInv.RouteCore` | src/connection.ts:375-512 | Routing any response keeps them |
| `ConnInv.DeliverAllAppends` | src/connection.ts:453-455 | Delivering a batch to an open stream appends it whole and in order; a done stream drops it |
| `Connection.Drive` | src/connection.ts:67-84 | An object that is connected and then offered any events is, after each, in exactly the state the theorems speak of |
| `Connection.Connect` | src/connection.ts:67-84 | Construction and the opening hello give the start state of every run |
| `Connection.Conn.constructor` | src/connection.ts:52-65 | A new connection is in the initial state, its writer parked |
| `Connection.Conn.TakeTurn` | src/connection.ts:90-580 | Each turn of the object is one step of the state machine |
| `Connection.Conn.Offer` | src/connection.ts:90-580 | An event that is not runnable now leaves the state as the state machine says |
| `Connection.Conn.Unary` | src/connection.ts:137-168 | Refused when dead; otherwise registered, possibly aborted at once, and its sender started; a throwing abort starts no sender |
| `Connection.Conn.Open` | src/connection.ts:106-126 | A read, subscription or hello registers and starts its sender without looking at `dead` |
| `Connection.Conn.Register` | src/connection.ts:518-521 | A fresh id, its promise or stream object, and its entry without a permit |
| `Connection.Conn.ResumeAtPermit` | src/connection.ts:170-227 | The sender after its in-flight acquire: release, fail, or encode, frame and await a slot |
| `Connection.Conn.ResumeAtSlot` | src/connection.ts:276-284 | The sender after its slot acquire: give the slot back and fail when dead, else push and signal |
| `Connection.Conn.SendCancel` | src/connection.ts:287-297 | Nothing when dead; else a fresh id, and the frame ahead of the queue with a signal, or the exception |
| `Connection.Conn.CancelStream` | src/connection.ts:536-542 | Cancel and finalise a pending stream; the exception skips the finalising |
| `Connection.Conn.CancelUnary` | src/connection.ts:544-554 | Cancel, finalise and reject a pending unary call; the exception skips both |
| `Connection.Conn.EndStream` | src/streams.ts:131-150 | `onAbort` and `close`: the stream closes first, and its sink ends only if the cancel did not throw |
| `Connection.Conn.FinalizeEntry` | src/connection.ts:524-534 | The entry goes and its permit, if it owned one, goes to the first waiter or back to the budget |
| `Connection.Conn.FailConnection` | src/connection.ts:560-580 | The loop over the entries, in any order, gives each its rejection; then the writer is signalled and the slot waiters drained; a second failure does nothing |
| `Connection.Conn.TellEntries` | src/connection.ts:569-575 | The loop itself: exactly the entries' promises and streams change |
| `Connection.Conn.RunWriter` | src/connection.ts:303-330 | One pass of the writer's loop to its next await, for each outcome of the write |
| `Connection.Conn.WriteQueued` | src/connection.ts:310-325 | Both shift loops, the concatenation, the write and the release loop |
| `Connection.Conn.TakePriority` | src/connection.ts:312-314 | The shift loop yields the cancels in order and empties their queue |
| `Connection.Conn.TakeOutbound` | src/connection.ts:315-318 | The shift loop yields the ordinary frames in order, counted |
| `Connection.Conn.ReleaseSlots` | src/connection.ts:320-322 | One slot release per ordinary frame written |
| `Connection.Conn.ResumeAtWriter` | src/connection.ts:323-329 | The writer resumed: the loop again, or the catch clause after a failed drain |
| `Connection.Conn.OnSocketGone` | src/connection.ts:61-62 | Error and close events fail the connection, then a writer awaiting drain |
| `Connection.Conn.OnData` | src/connection.ts:357-373 | The loop over the frames equals routing them one by one until one throws |
| `Connection.Conn.Route` | src/connection.ts:375-441 | Decode and route one body, or the exception of either |
| `Connection.Conn.RouteToRead` | src/connection.ts:443-471 | The read switch |
| `Connection.Conn.RouteToSubscription` | src/connection.ts:473-503 | The subscription switch |
| `Connection.Conn.AbortStream` | src/connection.ts:506-512 | Cancel a still-open request, then fail its stream; the exception skips the failing |
| `Connection.Conn.DeliverBatch` | src/connection.ts:453-455 | The delivery loop appends the batch |
| `Connection.MapEvents` | src/connection.ts:446-452 | The mapping loop returns every item, or nothing if an entry has no event |
| `Sync.FifoHandOff` | src/util.ts:24-49 | Over every trace of acquires and releases: grants are exactly the first arrivals in order, no barging, waiters are the rest in order, someone waits only when no permit is free, and permits are conserved |
| `Sync.GrantsThenWaiters` | src/util.ts:32-49 | Grants so far followed by waiters are the arrivals in order |
| `Sync.AcquireValid` | src/util.ts:32-40 | An acquire adds its ticket, to the granted or to the waiters, and keeps the permits available |
| `Sync.ReleaseValid` | src/util.ts:42-49 | A release makes one more permit available and loses no ticket |
| `Sync.DrainValid` | src/util.ts:51-57 | Draining wakes every waiter, loses no ticket and leaves nobody waiting |
| `Sync.Semaphore.Acquire` | src/util.ts:32-40 | The new state of the semaphore |
| `Sync.Semaphore.Release` | src/util.ts:42-49 | The new state of the semaphore |
| `Sync.Semaphore.DrainWaiters` | src/util.ts:51-57 | The loop grants every waiter and leaves the permits alone |
| `Sync.Gate.Signal` | src/util.ts:68-76 | Wakes the waiter or stores the signal, and says which |
| `Sync.Gate.Wait` | src/util.ts:78-86 | Consumes a stored signal or parks, and says which |
| `Streams.SinkIsFifoThenOutcome` | src/streams.ts:15-79 | Over every trace of push, finish, fail and next: the k-th accepted next gets the k-th item pushed before the first termination, later ones get that termination's outcome; the queue is what is left; at most one call is parked, only while nothing is buffered and nothing has terminated; every call is settled, refused or parked |
| `Streams.AcceptedAfter` | src/streams.ts:24-79 | A push to an open sink adds its item at the end of what was taken; every other operation, and a push to a done sink, changes nothing of it |
| `Streams.StaysInOrder` | src/streams.ts:24-79 | From any state whose answers are in order, push, finish, fail and next lead to another |
| `Streams.Sink.Push` | src/streams.ts:24-35 | The new state of the sink |
| `Streams.Sink.Finish` | src/streams.ts:37-47 | The new state of the sink |
| `Streams.Sink.Fail` | src/streams.ts:49-60 | The new state of the sink; the first terminal outcome stays |
| `Streams.Sink.Next` | src/streams.ts:62-78 | The new state of the sink: an item, the outcome, a refusal or a parked call |
| `Streams.Stream.FailWith` | src/streams.ts:109-112 | Closes, detaches and fails the sink |
| `Streams.Stream.EndWith` | src/streams.ts:171-174 | Records the watermark, closes and finishes the sink |
| `Streams.Stream.StartCancel` | src/streams.ts:131-137 | Closes once; only the first call goes on to `onCancel` |
| `Framing.ChunkingInvariance` | src/framing.ts:57-75 | For any stream in any chunks, a push throws exactly when the stream so far holds an oversized header, and if none does the frames returned and the bytes retained are those of a one-shot parse |
| `Framing.AnySplitYieldsTheBodies` | src/framing.ts:13-81 | For any bodies within the limit and any split of their framed concatenation, no push throws, the frames are the bodies in order, and nothing is left buffered, if and only if each body is shorter than 2^32 |
| `Framing.OversizeDetectedAtFourthByte` | src/framing.ts:61-65 | After complete frames, a prefix is rejected exactly when it reaches the fourth byte of the first oversized header |
| `Framing.StickyPushes` | src/framing.ts:57-75 | After a push has thrown every later push throws, and the buffer holds everything received since |
| `Framing.RestIsPartial` | src/framing.ts:57-75 | What a push that did not throw retains is shorter than 4 + maxFrameLen and holds no complete frame |
| `Framing.RetainedBound` | src/framing.ts:46-75 | Before an oversized header fewer than 4 + maxFrameLen bytes are retained; after one, every byte that arrives is |
| `Framing.MemoryIsBoundedExactly` | src/framing.ts:46-75 | Some bound holds of what is retained, over all streams, if and only if the limit is at least 2^32 - 1; and a stream without an oversized header keeps below 4 + maxFrameLen |
| `Framing.FloodIsRetained` | src/framing.ts:57-75 | After an oversized header some continuation makes the decoder hold more than any given number of bytes |
| `Framing.ParseCovers` | src/framing.ts:57-75 | The frames found, framed again, and the rest are the stream: parsing loses nothing |
| `Framing.NothingPartialExactly` | src/framing.ts:77-80 | Nothing is retained if and only if what arrived is whole frames within the limit |
| `Framing.FrameDecoder.HasPartial` | src/framing.ts:77-80 | Reports a partial frame exactly when what was pushed is not whole frames within the limit |
| `Framing.ParseResumes` | src/framing.ts:57-75 | Parsing a longer stream resumes where parsing its prefix stopped |
| `Framing.FrameRecoveredExactly` | src/framing.ts:13-34 | A framed body within the limit is recovered if and only if its length is below 2^32 |
| `Framing.ParseFramed` | src/framing.ts:13-81 | Parsing framed bodies within the limit gives the bodies back with nothing left, if and only if each is shorter than 2^32 |
| `Framing.WriteFrame` | src/framing.ts:13-25 | The big-endian header and the body, or the error for a body over the limit |
| `Framing.Concat` | src/framing.ts:36-44 | The two byte sequences in order |
| `Framing.FrameDecoder.Push` | src/framing.ts:57-75 | The loop returns the frames of a parse of buffer and chunk and retains the rest, or throws and retains all |
| `Framing.ConcatFrames` | src/connection.ts:586-601 | The batch in one buffer, in order |
| `WireFormat.RequestRoundTripExactly` | src/proto/messages.ts:418-480 | decode(encode(m)) is m if and only if every bigint is in the u64 range, every number is one a double holds in that range, and the token is not empty; at every nesting and length |
| `WireFormat.ResponseRoundTripExactly` | src/proto/messages.ts:708-774 | The same for responses, with no condition on presence: absent stays distinct from zero and empty |
| `WireFormat.RequestRoundTrip` | src/proto/messages.ts:418-480 | For every request at all, decoding its encoding gives its canonical form |
| `WireFormat.ResponseRoundTrip` | src/proto/messages.ts:708-774 | For every response at all, decoding its encoding gives its canonical form |
| `WireFormat.RequestForwardCompatible` | src/proto/messages.ts:447-480 | Any number of complete unknown fields, at any field boundary and any depth with lengths adjusted, and anything at all in the body of a stats request, leaves the decoded request unchanged |
| `WireFormat.ResponseForwardCompatible` | src/proto/messages.ts:739-774 | The same for responses |
| `WireFormat.RequestsDecodeAlike` | src/proto/messages.ts:447-480 | Any two bodies of whole fields, whoever wrote them, that differ only by unknown fields and stats bodies decode, and to the same request |
| `WireFormat.ResponsesDecodeAlike` | src/proto/messages.ts:739-774 | The same for responses and unknown fields |
| `WireFormat.AnyStatsBody` | src/proto/messages.ts:468-471 | A request whose known fields are an id and a stats body is a stats request, whatever the body holds |
| `WireFormat.EmptyTokenIsLost` | src/proto/messages.ts:391-398 | A hello with an empty token decodes to one with no token |
| `WireFormat.CancelFits` | src/proto/messages.ts:370-374 | The body of a cancel never exceeds 24 bytes |
| `WireFormat.CancelNotEmpty` | src/proto/messages.ts:370-374 | Nor is it shorter than two |
| `Fields.ParseInvertsSer` | src/proto/wire.ts:159-245 | For every message shape: parsing serialised fields, known and unknown, gives exactly the known ones, in order |
| `Fields.FieldRoundTrip` | src/proto/wire.ts:69-152 | One written field is read by one turn of the decode loop, which leaves exactly what follows |
| `Fields.SkipComplete` | src/proto/wire.ts:223-244 | Skipping a complete unknown field of wire type 0, 1, 2 or 5 leaves exactly what follows it |
| `Fields.WireTypeIgnored` | src/proto/messages.ts:163-182 | A field the switch has a case for is read the same whatever wire type its tag announces |
| `Varints.VarintRoundTrip` | src/proto/wire.ts:176-190 | A varint reads back as its value and stops at its end, whatever follows |
| `Varints.WrappedVarintRoundTrip` | src/proto/wire.ts:60-67 | For any bigint the residue modulo 2^64 reads back, and one to ten bytes are written |
| `Varints.VarintMinimal` | src/proto/wire.ts:60-67 | No byte string the reader takes for the value is shorter |
| `Varints.VarintLength` | src/proto/wire.ts:60-67 | The encoding has at most n bytes exactly when the value is below 128^n |
| `Varints.VarintReadable` | src/proto/wire.ts:176-190 | The reader takes a varint of any length and fails exactly where no byte ends it |
| `Varints.RoundedLengthsCompareAlike` | src/proto/wire.ts:202-206 | Against any length below 2^53, an announced length compares as its rounding to a double does |
| `WireWriter.Writer.constructor` | src/proto/wire.ts:21-23 | An empty buffer with the capacity given, any capacity |
| `WireWriter.Writer.Reserve` | src/proto/wire.ts:25-37 | Room without changing the contents; capacity a doubling of the initial one, at most twice the need; bytes moved by growing at most capacity minus initial; from capacity 0 only for nothing, as the loop would not end |
| `WireWriter.DoublingEnds` | src/proto/wire.ts:30-33 | Doubling a capacity reaches what is needed if and only if it starts above 0 or nothing is needed |
| `WireWriter.Writer.Varint` | src/proto/wire.ts:45-57 | The 32-bit path appends the same bytes as the bigint path, on every value |
| `WireWriter.Writer.VarintBig` | src/proto/wire.ts:60-67 | Appends the varint of the residue to an unchanged prefix |
| `WireWriter.Writer.Uint64` | src/proto/wire.ts:74-80 | Appends the field, or nothing for zero |
| `WireWriter.Writer.Uint64Present` | src/proto/wire.ts:83-86 | Appends the field even for zero |
| `WireWriter.Writer.Uint32` | src/proto/wire.ts:98-113 | Appends the field, or nothing for zero |
| `WireWriter.Writer.Bool` | src/proto/wire.ts:89-95 | Appends the field, or nothing for false |
| `WireWriter.Writer.Bytes` | src/proto/wire.ts:116-133 | Appends the field, or nothing for an empty value |
| `WireWriter.Writer.RepeatedString` | src/proto/wire.ts:145-152 | Appends the element, empty or not |
| `WireWriter.Writer.Message` | src/proto/wire.ts:136-142 | Appends the embedded message |
| `WireReader.Reader.VarintBig` | src/proto/wire.ts:176-190 | The accumulating loop computes the reader's recurrence, ends on every input, and fails exactly at a truncated varint |
| `WireReader.Reader.Tag` | src/proto/wire.ts:170-173 | Field number and wire type of the key, with the 32-bit shift of the source |
| `WireReader.Reader.Bytes` | src/proto/wire.ts:202-211 | Exactly the announced bytes inside the view, or the error |
| `WireReader.Reader.Skip` | src/proto/wire.ts:223-244 | Moves past a field of each wire type, possibly past the end, or fails on an unsupported one |
| `Encoders.EncodeEvent` | src/proto/messages.ts:153-161 | The writer's output is the serialised fields of the record, in schema order |
| `Encoders.EncodeQueryItem` | src/proto/messages.ts:184-193 | The writer's output is the serialised fields of the record, in schema order |
| `Encoders.EncodeQuery` | src/proto/messages.ts:213-220 | The writer's output is the serialised fields of the record, in schema order |
| `Encoders.EncodeCondition` | src/proto/messages.ts:240-248 | The writer's output is the serialised fields of the record, in schema order |
| `Encoders.EncodeAppendRequest` | src/proto/messages.ts:280-289 | The writer's output is the serialised fields of the record, in schema order |
| `Encoders.EncodeReadRequest` | src/proto/messages.ts:309-319 | The writer's output is the serialised fields of the record, in schema order |
| `Encoders.EncodeSubscribeRequest` | src/proto/messages.ts:345-350 | The writer's output is the serialised fields of the record, in schema order |
| `Encoders.EncodeSingle` | src/proto/messages.ts:370-374 | The writer's output is the serialised fields of the record, in schema order |
| `Encoders.EncodeHello` | src/proto/messages.ts:391-398 | The writer's output is the serialised fields of the record, in schema order |
| `Encoders.EncodeSequencedEvent` | src/proto/messages.ts:486-493 | The writer's output is the serialised fields of the record, in schema order |
| `Encoders.EncodeAppendResponse` | src/proto/messages.ts:513-518 | The writer's output is the serialised fields of the record, in schema order |
| `Encoders.EncodeReadEvents` | src/proto/messages.ts:538-544 | The writer's output is the serialised fields of the record, in schema order |
| `Encoders.EncodeStatsResponse` | src/proto/messages.ts:580-593 | The writer's output is the serialised fields of the record, in schema order |
| `Encoders.EncodeErrorResponse` | src/proto/messages.ts:648-657 | The writer's output is the serialised fields of the record, in schema order |
| `Encoders.EncodeHelloAck` | src/proto/messages.ts:683-688 | The writer's output is the serialised fields of the record, in schema order |
| `Encoders.EncodeRequest` | src/proto/messages.ts:418-445 | The output is the encoding the round-trip theorems speak of |
| `Encoders.EncodeResponse` | src/proto/messages.ts:708-737 | The output is the encoding the round-trip theorems speak of |
| `Decoders.DecodeEvent` | src/proto/messages.ts:163-182 | On any bytes the loop ends with the record folded from the fields the parse finds, last value winning, or with the parse's error |
| `Decoders.DecodeQueryItem` | src/proto/messages.ts:195-211 | On any bytes the loop ends with the record folded from the fields the parse finds, last value winning, or with the parse's error |
| `Decoders.DecodeQuery` | src/proto/messages.ts:222-238 | On any bytes the loop ends with the record folded from the fields the parse finds, last value winning, or with the parse's error |
| `Decoders.DecodeCondition` | src/proto/messages.ts:250-278 | On any bytes the loop ends with the record folded from the fields the parse finds, last value winning, or with the parse's error |
| `Decoders.DecodeAppendRequest` | src/proto/messages.ts:291-307 | On any bytes the loop ends with the record folded from the fields the parse finds, last value winning, or with the parse's error |
| `Decoders.DecodeReadRequest` | src/proto/messages.ts:321-343 | On any bytes the loop ends with the record folded from the fields the parse finds, last value winning, or with the parse's error |
| `Decoders.DecodeSubscribeRequest` | src/proto/messages.ts:352-368 | On any bytes the loop ends with the record folded from the fields the parse finds, last value winning, or with the parse's error |
| `Decoders.DecodeSingle` | src/proto/messages.ts:376-389 | On any bytes the loop ends with the record folded from the fields the parse finds, last value winning, or with the parse's error |
| `Decoders.DecodeHello` | src/proto/messages.ts:400-416 | On any bytes the loop ends with the record folded from the fields the parse finds, last value winning, or with the parse's error |
| `Decoders.DecodeSequencedEvent` | src/proto/messages.ts:495-511 | On any bytes the loop ends with the record folded from the fields the parse finds, last value winning, or with the parse's error |
| `Decoders.DecodeAppendResponse` | src/proto/messages.ts:520-536 | On any bytes the loop ends with the record folded from the fields the parse finds, last value winning, or with the parse's error |
| `Decoders.DecodeReadEvents` | src/proto/messages.ts:546-559 | On any bytes the loop ends with the record folded from the fields the parse finds, last value winning, or with the parse's error |
| `Decoders.DecodeStatsResponse` | src/proto/messages.ts:595-646 | On any bytes the loop ends with the record folded from the fields the parse finds, last value winning, or with the parse's error |
| `Decoders.DecodeErrorResponse` | src/proto/messages.ts:659-681 | On any bytes the loop ends with the record folded from the fields the parse finds, last value winning, or with the parse's error |
| `Decoders.DecodeHelloAck` | src/proto/messages.ts:690-706 | On any bytes the loop ends with the record folded from the fields the parse finds, last value winning, or with the parse's error |
| `Decoders.DecodeRequest` | src/proto/messages.ts:447-480 | On any bytes, a request or a range error, as the parse says |
| `Decoders.DecodeResponse` | src/proto/messages.ts:739-774 | On any bytes, a response or a range error, as the parse says |
| `Canonical.EqualSetsEncodeEqually` | src/types.ts:94-121 | Accepted events with the same type, payload and set of tags encode to the same bytes, whatever the order given |
| `Canonical.SameBytesSameEvent` | src/types.ts:64-80 | Accepted events of well-formed names encode to the same bytes if and only if type, payload and set of tags agree |
| `Canonical.EncodedAlikeExactly` | src/types.ts:64-80 | Any two events encode to the same bytes if and only if their payloads agree and their names, tag by tag, differ in lone surrogates alone |
| `Canonical.Utf8AlikeExactly` | src/types.ts:34-50 | Two strings have the same encoding if and only if they are equal once each lone surrogate is replaced by U+FFFD; for well-formed ones, if and only if they are equal |
| `Canonical.RepairedExactly` | src/types.ts:34-50 | That replacement keeps the encoding, gives well-formed text, and changes exactly the text that is not |
| `Canonical.LoneSurrogatesCollide` | src/types.ts:64-80 | Illustration: two tags accepted as distinct that encode alike |
| `Canonical.Create` | src/types.ts:114-121 | Accepts exactly a valid type with valid, pairwise distinct tags, and stores a strictly increasing permutation of them |
| `Canonical.ValidatedTagSet` | src/types.ts:68-80 | Accepts exactly valid, pairwise distinct tags; the adjacent scan after the sort misses no duplicate |
| `Canonical.ValidateName` | src/types.ts:52-62 | Accepts exactly a non-empty name whose counted length is at most 65535; the error says which fault |
| `Canonical.Utf8ByteLength` | src/types.ts:34-50 | The loop computes the counter's recurrence, including its skip past the end |
| `Canonical.CountedIsUtf8Length` | src/types.ts:34-50 | On well-formed UTF-16 the count is the length of the UTF-8 encoding (section 3 of RFC 3629) |
| `Canonical.CountedAtMostOneOver` | src/types.ts:34-50 | On any string the count exceeds the encoded length by at most one |
| `Canonical.CountedExactly` | src/types.ts:34-50 | On every string the encoded length is the count plus what the scan misses, a number read off the units after each high surrogate; so the count is right if and only if that is 0 |
| `Canonical.LoneSurrogateMiscounted` | src/types.ts:42-44 | Illustration: ill-formed strings counted one over, one under, and right |
| `Canonical.SortIncreasing` | src/types.ts:73-78 | The sorted list is strictly increasing exactly when the elements are pairwise distinct |
| `Canonical.IncreasingUnique` | src/types.ts:94-98 | A strictly increasing list is determined by its set of elements |

## Left out

- Transport, TLS, dialling, timeouts and the socket: the socket is an append-only log with a write result chosen by the event, and data, drain, error and close events.
- `waitDrain` progress: that a drain event ever arrives depends on the runtime. A writer awaiting drain is not counted as quiet.
- `src/client.ts`, `src/options.ts`, `src/errors.ts`: address parsing, pooling, defaults and message texts; errors are tags.
- Real UTF-8 decoding: wire strings are their byte sequences. `Canonical.Utf8` is an encoder only.
- Buffer views and aliasing of chunks, frames and fields: these are immutable sequences.
- Microtask order: a granted continuation runs in some later turn, in any order, so the results hold for the runtime's actual order too.
- The abort listener's removal and `queueMicrotask` on an already aborted stream signal: an abort may come at any turn, and finds the stream closed or open.
- `Deferred` and `AsyncIterator` objects: a promise is the sequence of its settlements, kept by id beside the entry, and `collect` and `for await` are calls of `next`.
- `Symbol.asyncIterator().return`: it is `close`.
- `QueryItem`, `Query` and `AppendCondition` factories, `isCaughtUp`, `convert.ts` field copies: they would only add easy members.
- Server semantics: query matching, append conditions, pagination.
- Connection.Conn.Route: the callee's `convert.ts` wrappers around append and stats results are not modelled; the reply is the wire record.
- WireWriter.Writer.Reserve: from capacity 0 it is not called for a positive need, where its loop does not end, as `WireWriter.DoublingEnds` says; the writes after a capacity of 0 are left out with it. Every caller uses the default 64.
- WireReader.Reader.Bytes: the announced length is compared as an integer, not as a double; `Varints.RoundedLengthsCompareAlike` shows that this decides alike for any buffer below 2^53 bytes.
- ConnTheorems.NothingForgotten: needs one queue slot, without which no ordinary request is ever sent (`ConnTheorems.NoSlotNothingSent`). Says nothing of a unary call aborted at once by a cancel that does not fit a frame, which has no sender.
- ConnTheorems.EveryResponseIsRouted: asks for response bodies shorter than 2^32, since the header of a longer one announces another length (`Framing.ParseFramed` has both directions).
- ConnHello.HelloGoesFirst: assumes, as `connect` arranges, that nothing is asked before a frame has been written; a server that acknowledges a hello it has not received is not covered.
