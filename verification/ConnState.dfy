/**
 * The multiplexed connection as a state machine. JavaScript runs each turn to completion, so one turn is
 * one step: a call by the user, an abort or close, a resumed `await`, or a socket event. The functions
 * below give each turn's effect; the class in Conn.dfy is the code that has that effect.
 *
 * A promise is a ticket: an acquire is named by the id of the request whose sender awaits it.
 */
module ConnState {
  import opened Base
  import opened Messages
  import opened Framing
  import opened Sync
  import opened Streams
  import opened Errors

  datatype Config = Config(maxInflight: nat, queueDepth: nat, maxFrameLen: nat)

  datatype Wanted = WantsAppend | WantsStats
  datatype PendingKind = UnaryPending(wants: Wanted) | HelloPending | ReadPending | SubscribePending
  datatype Pending = Pending(kind: PendingKind, permit: bool)

  datatype Reply = AppendReply(append: WireAppendResponse) | StatsReply(stats: WireStatsResponse) | HelloReply
  datatype Settlement = Resolved(reply: Reply) | Rejected(error: Error)

  datatype StreamItem = EventItem(position: int, event: WireEvent) | CaughtUpItem(watermark: int)

  /** Where the coroutine that sends a request is suspended; finished senders are not recorded. */
  datatype Sender = AwaitPermit(kind: RequestKind) | AwaitSlot(frame: bytes, request: WireRequest)

  /** The writer: parked on the gate, about to run, awaiting drain, about to see the drain fail, or over. */
  datatype WriterPc = Parked | Ready | Draining | DrainFailed | Over

  /** A routed response, and whether its id was pending when it was. */
  datatype Routed = Routed(response: WireResponse, live: bool)

  /**
   * The two outbound queues and the socket's byte log, with the history behind them: every ordinary
   * request and every cancel ever queued, in order, and the requests written, in wire order.
   */
  datatype Wire = Wire(
    outbound: seq<bytes>, priority: seq<bytes>, written: bytes,
    ordinary: seq<WireRequest>, cancels: seq<WireRequest>, sent: seq<WireRequest>)

  /**
   * `deferreds` lists every settlement of a unary call's or hello's promise, in order. The last five
   * fields are history: what each request asked for, the permits of the entries dropped at death, the
   * id counter at death, the bytes received, and the responses routed.
   */
  datatype State = State(
    cfg: Config,
    pending: map<nat, Pending>,
    deferreds: map<nat, seq<Settlement>>,
    streams: map<nat, StreamState<StreamItem>>,
    senders: map<nat, Sender>,
    inflight: Sem,
    slots: Sem,
    gate: GateState,
    writer: WriterPc,
    wire: Wire,
    buffer: bytes,
    idCounter: nat,
    dead: bool,
    cause: Option<Error>,
    refusals: seq<Error>,
    issued: map<nat, RequestKind>,
    stranded: nat,
    deathId: nat,
    received: bytes,
    routed: seq<Routed>)

  function Init(cfg: Config): State {
    State(cfg, map[], map[], map[], map[], Sem(cfg.maxInflight, [], {}), Sem(cfg.queueDepth, [], {}),
          GateState(true, false), Parked, Wire([], [], [], [], [], []), [], 0, false, None, [],
          map[], 0, 0, [], [])
  }

  // ---------------------------------------------------------------------------
  // Bookkeeping
  // ---------------------------------------------------------------------------

  predicate IsCall(k: PendingKind) {
    k.UnaryPending? || k.HelloPending?
  }

  function DeadError(s: State): Error {
    if s.cause.Some? then s.cause.value else ConnError(Closed)
  }

  /** `writerGate.signal()`. */
  function Signal(s: State): State {
    if s.gate.waiting then s.(gate := GateState(false, s.gate.signalled), writer := Ready)
    else s.(gate := GateState(false, true))
  }

  function Finalize(s: State, id: nat): State {
    if id !in s.pending then s
    else
      var released := if s.pending[id].permit then s.inflight.Release() else s.inflight;
      s.(pending := s.pending - {id}, inflight := released)
  }

  /** The promise of a pending call, and the stream of a pending read or subscription, by id. */
  function Promise(s: State, id: nat): seq<Settlement> {
    if id in s.deferreds then s.deferreds[id] else []
  }

  function StreamAt(s: State, id: nat): StreamState<StreamItem> {
    if id in s.streams then s.streams[id] else NewStream(false)
  }

  function Settle(s: State, id: nat, o: Settlement): State {
    s.(deferreds := s.deferreds[id := Promise(s, id) + [o]])
  }

  function SetStream(s: State, id: nat, st: StreamState<StreamItem>): State {
    s.(streams := s.streams[id := st])
  }

  /** The catch clauses of the senders: finalise, then reject the promise or fail the stream. */
  function FailEntry(s: State, id: nat, e: Error): State {
    if id !in s.pending then s
    else if IsCall(s.pending[id].kind) then Settle(Finalize(s, id), id, Rejected(e))
    else SetStream(Finalize(s, id), id, StreamAt(s, id).FailWith(e))
  }

  function PermitIds(pending: map<nat, Pending>): set<nat> {
    set id | id in pending && pending[id].permit
  }

  function FailedDeferreds(s: State, e: Error): map<nat, seq<Settlement>> {
    map id | id in s.deferreds ::
      if id in s.pending && IsCall(s.pending[id].kind) then s.deferreds[id] + [Rejected(e)] else s.deferreds[id]
  }

  function FailedStreams(s: State, e: Error): map<nat, StreamState<StreamItem>> {
    map id | id in s.streams ::
      if id in s.pending && !IsCall(s.pending[id].kind) then s.streams[id].FailWith(e) else s.streams[id]
  }

  function FailConnection(s: State, e: Error): State {
    if s.dead then s
    else
      var woken := Signal(s);
      s.(dead := true, cause := Some(e), pending := map[], deferreds := FailedDeferreds(s, e),
         streams := FailedStreams(s, e), gate := woken.gate, writer := woken.writer, slots := s.slots.Drain(),
         stranded := |PermitIds(s.pending)|, deathId := s.idCounter)
  }

  // ---------------------------------------------------------------------------
  // Cancelling
  // ---------------------------------------------------------------------------

  /** The state a call leaves, and the exception it ended in, if any. */
  datatype Turn = Turn(state: State, error: Option<Error>)

  /** Queues a cancel ahead of the ordinary requests; throws if even that does not fit a frame. */
  function SendCancel(s: State, target: nat): Turn {
    if s.dead then Turn(s, None)
    else
      var request := WireRequest(s.idCounter + 1, CancelRequest(target));
      var body := EncodedRequest(request);
      if |body| > s.cfg.maxFrameLen then
        Turn(s.(idCounter := s.idCounter + 1), Some(FrameError(FrameTooLarge(|body|, s.cfg.maxFrameLen))))
      else
        var woken := Signal(s);
        Turn(s.(idCounter := s.idCounter + 1, gate := woken.gate, writer := woken.writer,
                wire := s.wire.(priority := s.wire.priority + [Frame(body)], cancels := s.wire.cancels + [request])),
             None)
  }

  function CancelUnary(s: State, id: nat, e: Error): Turn {
    if id !in s.pending then Turn(s, None)
    else
      var t := SendCancel(s, id);
      if t.error.Some? then t
      else
        var s1 := Finalize(t.state, id);
        Turn(if s.pending[id].kind.UnaryPending? then Settle(s1, id, Rejected(e)) else s1, None)
  }

  function CancelStream(s: State, id: nat): Turn {
    if id !in s.pending then Turn(s, None)
    else
      var t := SendCancel(s, id);
      if t.error.Some? then t else Turn(Finalize(t.state, id), None)
  }

  /** `onAbort` and `close` of a stream: they differ in how the sink ends. */
  function EndStream(s: State, id: nat, aborted: Option<Error>): State {
    if StreamAt(s, id).closed then s
    else
      var t := CancelStream(SetStream(s, id, StreamAt(s, id).StartCancel()), id);
      if t.error.Some? then t.state
      else
        var st := StreamAt(t.state, id);
        SetStream(t.state, id,
                  st.(sink := if aborted.Some? then st.sink.Fail(aborted.value) else st.sink.Finish()))
  }

  // ---------------------------------------------------------------------------
  // Opening requests
  // ---------------------------------------------------------------------------

  function Register(s: State, kind: PendingKind, request: RequestKind, listening: bool): State {
    var id := s.idCounter + 1;
    s.(idCounter := id, pending := s.pending[id := Pending(kind, false)],
       deferreds := if IsCall(kind) then s.deferreds[id := []] else s.deferreds,
       streams := if IsCall(kind) then s.streams else s.streams[id := NewStream(listening)],
       issued := s.issued[id := request])
  }

  /** The sender runs up to its first `await`, the in-flight acquire. */
  function StartSender(s: State, id: nat, request: RequestKind): State {
    s.(senders := s.senders[id := AwaitPermit(request)], inflight := s.inflight.Acquire(id))
  }

  /** `append` and `stats`. `aborted` is the reason of a signal that has already fired. */
  function OpenUnary(s: State, request: RequestKind, wants: Wanted, aborted: Option<Error>): State {
    if s.dead then s.(refusals := s.refusals + [DeadError(s)])
    else
      var id := s.idCounter + 1;
      var s1 := Register(s, UnaryPending(wants), request, false);
      if aborted.None? then StartSender(s1, id, request)
      else
        var t := CancelUnary(s1, id, aborted.value);
        if t.error.Some? then t.state else StartSender(t.state, id, request)
  }

  function OpenOther(s: State, kind: PendingKind, request: RequestKind, listening: bool): State {
    StartSender(Register(s, kind, request, listening), s.idCounter + 1, request)
  }

  // ---------------------------------------------------------------------------
  // Senders resuming
  // ---------------------------------------------------------------------------

  predicate PermitReady(s: State, id: nat) {
    id in s.senders && s.senders[id].AwaitPermit? && id in s.inflight.granted
  }

  /** A sender picks up its in-flight permit. */
  function ResumePermit(s: State, id: nat): State
    requires PermitReady(s, id)
  {
    var s0 := s.(inflight := s.inflight.Resume(id));
    if id !in s.pending then
      s0.(inflight := s0.inflight.Release(), senders := s.senders - {id})
    else if s.dead then
      FailEntry(s0.(inflight := s0.inflight.Release(), senders := s.senders - {id}), id, DeadError(s))
    else
      var s1 := s0.(pending := s.pending[id := s.pending[id].(permit := true)]);
      var request := WireRequest(id, s.senders[id].kind);
      var body := EncodedRequest(request);
      if |body| > s.cfg.maxFrameLen then
        FailEntry(s1.(senders := s.senders - {id}), id, FrameError(FrameTooLarge(|body|, s.cfg.maxFrameLen)))
      else
        s1.(senders := s.senders[id := AwaitSlot(Frame(body), request)], slots := s.slots.Acquire(id))
  }

  predicate SlotReady(s: State, id: nat) {
    id in s.senders && s.senders[id].AwaitSlot? && id in s.slots.granted
  }

  /** A sender picks up its slot in the outbound queue, or finds the connection dead. */
  function ResumeSlot(s: State, id: nat): State
    requires SlotReady(s, id)
  {
    var s0 := s.(slots := s.slots.Resume(id), senders := s.senders - {id});
    if s.dead then
      FailEntry(s0.(slots := s0.slots.Release()), id, DeadError(s))
    else
      Signal(s0.(wire := s.wire.(outbound := s.wire.outbound + [s.senders[id].frame],
                                 ordinary := s.wire.ordinary + [s.senders[id].request])))
  }

  // ---------------------------------------------------------------------------
  // The writer
  // ---------------------------------------------------------------------------

  /** `socket.write`: buffered with room, buffered past the high-water mark, or an exception. */
  datatype WriteResult = Flushed | Full | Throws

  function ReleaseTimes(sem: Sem, n: nat): Sem
    decreases n
  {
    if n == 0 then sem else ReleaseTimes(sem.Release(), n - 1)
  }

  /** `writerGate.wait()` by the writer. */
  function AwaitGate(s: State): State {
    var signalled := s.gate.signalled;
    s.(gate := GateState(if signalled then s.gate.waiting else true, false),
       writer := if signalled then Ready else Parked)
  }

  function LastN<T>(xs: seq<T>, n: nat): seq<T> {
    if n <= |xs| then xs[|xs| - n..] else []
  }

  /** The requests behind what is queued: the cancels first. */
  function Batch(w: Wire): seq<WireRequest> {
    LastN(w.cancels, |w.priority|) + LastN(w.ordinary, |w.outbound|)
  }

  function Emptied(s: State): State {
    s.(wire := s.wire.(priority := [], outbound := []))
  }

  /** A write taken by the socket: the batch moves from the queues to the wire and its slots are free again. */
  function Written(s: State): State {
    var w := s.wire;
    s.(wire := w.(priority := [], outbound := [], written := w.written + Flatten(w.priority + w.outbound),
                  sent := w.sent + Batch(w)),
       slots := ReleaseTimes(s.slots, |w.outbound|))
  }

  /** The writer runs from `while (!dead)` to its next `await`, writing one batch if anything is queued. */
  function RunWriter(s: State, result: WriteResult): State {
    if s.dead then s.(writer := Over)
    else if s.wire.priority == [] && s.wire.outbound == [] then AwaitGate(s)
    else if result == Throws then
      FailConnection(Emptied(s).(writer := Over), ConnError(WriteFailed(WriteException))).(writer := Over)
    else if result == Full then Written(s).(writer := Draining)
    else AwaitGate(Written(s))
  }

  function ResumeWriter(s: State, result: WriteResult): State {
    if s.writer == Ready then RunWriter(s, result)
    else if s.writer == DrainFailed then
      FailConnection(s.(writer := Over), ConnError(WriteFailed(DeadError(s)))).(writer := Over)
    else s
  }

  /** The socket's 'error' and 'close' events: the connection's listener runs before the writer's. */
  function SocketGone(s: State, reason: ConnReason): State {
    var s1 := FailConnection(s, ConnError(reason));
    if s1.writer == Draining then s1.(writer := DrainFailed) else s1
  }

  // ---------------------------------------------------------------------------
  // The reader
  // ---------------------------------------------------------------------------

  /** `sequencedFromWire` over a batch: an entry without an event fails the whole batch. */
  function Mapped(events: seq<WireSequencedEvent>): Option<seq<StreamItem>> {
    if events == [] then Some([])
    else
      var init, last := Mapped(events[..|events| - 1]), events[|events| - 1];
      if init.None? || last.event.None? then None
      else Some(init.value + [EventItem(last.position, last.event.value)])
  }

  function DeliverAll(st: StreamState<StreamItem>, items: seq<StreamItem>): StreamState<StreamItem> {
    if items == [] then st else DeliverAll(st, items[..|items| - 1]).Deliver(items[|items| - 1])
  }

  /** A protocol violation on a stream: cancel it server-side if still open, then fail it. */
  function AbortStream(s: State, id: nat, e: Error): Turn {
    var t := CancelStream(s, id);
    if t.error.Some? then t else Turn(SetStream(t.state, id, StreamAt(t.state, id).FailWith(e)), None)
  }

  function HelloSettlement(k: ResponseKind): Settlement {
    match k
    case HelloAck(ack) =>
      if ack.protocolVersion != PROTOCOL_VERSION
      then Rejected(ProtocolError(VersionMismatch(ack.protocolVersion))) else Resolved(HelloReply)
    case ErrorResponse(e) => Rejected(ServerError(e))
    case _ => Rejected(ProtocolError(UnexpectedKind))
  }

  function UnarySettlement(wants: Wanted, k: ResponseKind): Settlement {
    if k.ErrorResponse? then Rejected(ServerError(k.error))
    else if wants == WantsAppend && k.AppendResponse? then Resolved(AppendReply(k.append))
    else if wants == WantsStats && k.StatsResponse? then Resolved(StatsReply(k.stats))
    else Rejected(ProtocolError(UnexpectedKind))
  }

  function RouteRead(s: State, id: nat, k: ResponseKind): Turn {
    match k
    case ReadEvents(events) =>
      var mapped := Mapped(events);
      if mapped.None? then AbortStream(s, id, ProtocolError(MissingEvent))
      else Turn(SetStream(s, id, DeliverAll(StreamAt(s, id), mapped.value)), None)
    case ReadEnd(w) => Turn(SetStream(Finalize(s, id), id, StreamAt(s, id).EndWith(w)), None)
    case ErrorResponse(e) => Turn(SetStream(Finalize(s, id), id, StreamAt(s, id).FailWith(ServerError(e))), None)
    case _ => AbortStream(s, id, ProtocolError(UnexpectedKind))
  }

  function RouteSubscribe(s: State, id: nat, k: ResponseKind): Turn {
    match k
    case ReadEvents(events) =>
      var mapped := Mapped(events);
      if mapped.None? then AbortStream(s, id, ProtocolError(MissingEvent))
      else Turn(SetStream(s, id, DeliverAll(StreamAt(s, id), mapped.value)), None)
    case CaughtUp(w) => Turn(SetStream(s, id, StreamAt(s, id).Deliver(CaughtUpItem(w))), None)
    case ErrorResponse(e) => Turn(SetStream(Finalize(s, id), id, StreamAt(s, id).FailWith(ServerError(e))), None)
    case _ => AbortStream(s, id, ProtocolError(UnexpectedKind))
  }

  /** The switch of `route` on the entry's type. */
  function Dispatch(s: State, id: nat, k: ResponseKind): Turn
    requires id in s.pending
  {
    match s.pending[id].kind
    case HelloPending => Turn(Settle(Finalize(s, id), id, HelloSettlement(k)), None)
    case UnaryPending(wants) => Turn(Settle(Finalize(s, id), id, UnarySettlement(wants, k)), None)
    case ReadPending => RouteRead(s, id, k)
    case SubscribePending => RouteSubscribe(s, id, k)
  }

  function Record(s: State, r: WireResponse): State {
    s.(routed := s.routed + [Routed(r, r.requestId in s.pending)])
  }

  function Route(s: State, r: WireResponse): Turn {
    var s1 := Record(s, r);
    if r.requestId == 0 then
      Turn(if r.kind.ErrorResponse? then FailConnection(s1, ConnError(Unattributed(ServerError(r.kind.error))))
           else s1, None)
    else if r.requestId !in s.pending then Turn(s1, None)
    else Dispatch(s1, r.requestId, r.kind)
  }

  /** `onData` after the decoder: bodies are decoded and routed one by one until something throws. */
  function RouteAll(s: State, bodies: seq<bytes>): State
    decreases |bodies|
  {
    if bodies == [] then s
    else
      match DecodedResponse(bodies[0])
      case Err(e) => FailConnection(s, ConnError(ProtocolFailed(BodyError(e))))
      case Ok(r) =>
        var t := Route(s, r);
        if t.error.Some? then FailConnection(t.state, ConnError(ProtocolFailed(t.error.value)))
        else RouteAll(t.state, bodies[1..])
  }

  function OnData(s: State, chunk: bytes): State {
    var push := PushResult(s.cfg.maxFrameLen, s.buffer, chunk);
    var s1 := s.(buffer := push.1, received := s.received + chunk);
    match push.0
    case Err(e) => FailConnection(s1, ConnError(FramingFailed(FrameError(e))))
    case Ok(bodies) => RouteAll(s1, bodies)
  }

  // ---------------------------------------------------------------------------
  // Turns and runs
  // ---------------------------------------------------------------------------

  datatype Event =
    | CallAppend(append: WireAppendRequest, aborted: Option<Error>)
    | CallStats(aborted: Option<Error>)
    | CallRead(read: WireReadRequest, listening: bool)
    | CallSubscribe(subscribe: WireSubscribeRequest, listening: bool)
    | AbortCall(id: nat, reason: Error)
    | AbortOfStream(id: nat, reason: Error)
    | CloseOfStream(id: nat)
    | NextOfStream(id: nat)
    | PermitResumes(id: nat)
    | SlotResumes(id: nat)
    | WriterResumes(result: WriteResult)
    | Drained
    | SocketError
    | SocketClosed
    | CloseConnection
    | Data(chunk: bytes)

  /** A unary call: the only kind whose promise an abort signal can reject. */
  predicate IsUnary(s: State, id: nat) {
    id in s.issued && (s.issued[id].AppendRequest? || s.issued[id].StatsRequest?)
  }

  /** One turn. A turn the runtime would not run now leaves the state alone. */
  function Step(s: State, ev: Event): State {
    match ev
    case CallAppend(append, aborted) => OpenUnary(s, AppendRequest(append), WantsAppend, aborted)
    case CallStats(aborted) => OpenUnary(s, StatsRequest, WantsStats, aborted)
    case CallRead(read, listening) => OpenOther(s, ReadPending, ReadRequest(read), listening)
    case CallSubscribe(subscribe, listening) => OpenOther(s, SubscribePending, SubscribeRequest(subscribe), listening)
    case AbortCall(id, reason) => if IsUnary(s, id) then CancelUnary(s, id, reason).state else s
    case AbortOfStream(id, reason) => if id in s.streams then EndStream(s, id, Some(reason)) else s
    case CloseOfStream(id) => if id in s.streams then EndStream(s, id, None) else s
    case NextOfStream(id) => if id in s.streams then SetStream(s, id, s.streams[id].Next()) else s
    case PermitResumes(id) => if PermitReady(s, id) then ResumePermit(s, id) else s
    case SlotResumes(id) => if SlotReady(s, id) then ResumeSlot(s, id) else s
    case WriterResumes(result) => ResumeWriter(s, result)
    case Drained => if s.writer == Draining then s.(writer := Ready) else s
    case SocketError => SocketGone(s, SocketFailed)
    case SocketClosed => SocketGone(s, Closed)
    case CloseConnection => FailConnection(s, ConnError(Closed))
    case Data(chunk) => OnData(s, chunk)
  }

  /** `connect` constructs the connection and sends the opening hello in one turn. */
  function Connected(cfg: Config, token: Option<bytes>): State {
    OpenOther(Init(cfg), HelloPending, HelloRequest(WireHello(PROTOCOL_VERSION, token)), false)
  }

  /** The state after a run of turns, in order. */
  function Run(start: State, events: seq<Event>): State {
    if events == [] then start else Step(Run(start, events[..|events| - 1]), events[|events| - 1])
  }
}
