/**
 * Nothing is forgotten. As long as every cancel fits a frame, a request in the table is on its way to
 * the socket or has reached it, and a closed stream has ended; the runtime's own turns run dry; and
 * once they have, everything that may be sent has been sent.
 */
module ConnProgress {
  import opened Base
  import opened Messages
  import opened Framing
  import Sync
  import opened Streams
  import opened Errors
  import opened ConnState
  import opened ConnInv
  import opened ConnOrder
  import opened ConnDemux
  import opened ConnInbound

  ghost predicate Queued(ordinary: seq<WireRequest>, id: nat) {
    exists i :: 0 <= i < |ordinary| && ordinary[i].requestId == id
  }

  /**
   * An entry that is certain to have had a sender: only a unary call aborted at once by a cancel that
   * throws has none.
   */
  predicate Started(kind: PendingKind, max: nat) {
    !kind.UnaryPending? || max >= CANCEL_LEN
  }

  /** An entry whose sender is past the permit owns it, and one whose sender is over has been queued. */
  ghost predicate SentOk(pending: map<nat, Pending>, senders: map<nat, Sender>, ordinary: seq<WireRequest>, max: nat) {
    forall id :: id in pending && Started(pending[id].kind, max) && (id in senders ==> senders[id].AwaitSlot?) ==>
      pending[id].permit && (id !in senders ==> Queued(ordinary, id))
  }

  ghost predicate ClosedOk(streams: map<nat, StreamState<StreamItem>>) {
    forall id :: id in streams && streams[id].closed ==> streams[id].sink.done
  }

  ghost predicate Tracked(s: State) {
    && SentOk(s.pending, s.senders, s.wire.ordinary, s.cfg.maxFrameLen)
    && (s.cfg.maxFrameLen >= CANCEL_LEN ==> ClosedOk(s.streams))
  }

  // ---------------------------------------------------------------------------
  // Entries
  // ---------------------------------------------------------------------------

  lemma QueuedLater(a: seq<WireRequest>, b: seq<WireRequest>, id: nat)
    requires Queued(a, id) && a <= b
    ensures Queued(b, id)
  {
    var i :| 0 <= i < |a| && a[i].requestId == id;
    assert b[i].requestId == id;
  }

  /** A turn that opens nothing and moves no sender on. */
  lemma SentStill(s: State, t: State)
    requires Core(s) && Core(t) && Later(s, t) && Still(s, t)
    requires SentOk(s.pending, s.senders, s.wire.ordinary, s.cfg.maxFrameLen)
    ensures SentOk(t.pending, t.senders, t.wire.ordinary, t.cfg.maxFrameLen)
  {
    hide SettledOk, StreamsOk, SendersOk, FramesOk, PermitsOk, SlotsOk, WriterOk, DeadOk, WireOk, OriginOk;
    hide StreamLater, Queued, DeathLater;
    forall id | id in t.pending && Started(t.pending[id].kind, t.cfg.maxFrameLen)
                && (id in t.senders ==> t.senders[id].AwaitSlot?)
      ensures t.pending[id].permit && (id !in t.senders ==> Queued(t.wire.ordinary, id))
    {
      assert id in s.issued && id in s.pending;
      if id !in s.senders {
        QueuedLater(s.wire.ordinary, t.wire.ordinary, id);
      }
    }
  }

  lemma SentOpened(pending: map<nat, Pending>, senders: map<nat, Sender>, ordinary: seq<WireRequest>, max: nat, id: nat,
                   p: Pending, request: RequestKind)
    requires SentOk(pending, senders, ordinary, max) && id !in pending
    ensures SentOk(pending[id := p], senders[id := AwaitPermit(request)], ordinary, max)
    ensures SentOk(pending, senders[id := AwaitPermit(request)], ordinary, max)
    ensures !Started(p.kind, max) ==> SentOk(pending[id := p], senders, ordinary, max)
  {
    hide Queued;
  }

  lemma OpenSent(s: State, kind: PendingKind, request: RequestKind, listening: bool)
    requires Core(s) && SentOk(s.pending, s.senders, s.wire.ordinary, s.cfg.maxFrameLen)
    ensures var t := OpenOther(s, kind, request, listening);
            SentOk(t.pending, t.senders, t.wire.ordinary, t.cfg.maxFrameLen)
  {
    hide SentOk, SettledOk, StreamsOk, SendersOk, FramesOk, PermitsOk, SlotsOk, WriterOk, DeadOk, WireOk, OriginOk;
    var id := s.idCounter + 1;
    assert id !in s.pending;
    SentOpened(s.pending, s.senders, s.wire.ordinary, s.cfg.maxFrameLen, id, Pending(kind, false), request);
  }

  lemma OpenUnarySent(s: State, request: RequestKind, wants: Wanted, aborted: Option<Error>)
    requires Core(s) && SentOk(s.pending, s.senders, s.wire.ordinary, s.cfg.maxFrameLen)
    ensures var t := OpenUnary(s, request, wants, aborted);
            SentOk(t.pending, t.senders, t.wire.ordinary, t.cfg.maxFrameLen)
  {
    hide SentOk, SettledOk, StreamsOk, SendersOk, FramesOk, PermitsOk, SlotsOk, WriterOk, DeadOk, WireOk, OriginOk;
    hide SendCancel, Finalize;
    if !s.dead {
      var id, s1 := s.idCounter + 1, Register(s, UnaryPending(wants), request, false);
      assert id !in s.pending;
      SentOpened(s.pending, s.senders, s.wire.ordinary, s.cfg.maxFrameLen, id, Pending(UnaryPending(wants), false),
                 request);
      if aborted.Some? {
        SendCancelThrows(s1, id);
        SendCancelKeeps(s1, id);
        FinalizeKeeps(SendCancel(s1, id).state, id);
        assert s1.pending - {id} == s.pending;
      }
    }
  }

  /** Dropping an entry, or its sender's progress at one id. */
  lemma SentAt(pending: map<nat, Pending>, senders: map<nat, Sender>, ordinary: seq<WireRequest>, max: nat,
               pending': map<nat, Pending>, senders': map<nat, Sender>, ordinary': seq<WireRequest>, x: nat)
    requires SentOk(pending, senders, ordinary, max) && ordinary <= ordinary'
    requires forall id :: id in pending' && id != x ==>
               id in pending && pending'[id] == pending[id]
               && (id in senders <==> id in senders') && (id in senders ==> senders'[id] == senders[id])
    requires x in pending' && Started(pending'[x].kind, max) && (x in senders' ==> senders'[x].AwaitSlot?) ==>
               pending'[x].permit && (x !in senders' ==> Queued(ordinary', x))
    ensures SentOk(pending', senders', ordinary', max)
  {
    hide Queued;
    forall id | id in pending' && id != x && id !in senders' && Queued(ordinary, id)
      ensures Queued(ordinary', id)
    {
      QueuedLater(ordinary, ordinary', id);
    }
  }

  lemma FailEntryDrops(s: State, id: nat, e: Error)
    ensures var t := FailEntry(s, id, e);
            && t.pending == s.pending - {id} && t.senders == s.senders && t.wire == s.wire
            && t.gate == s.gate && t.writer == s.writer && t.cfg == s.cfg
  {
    hide Finalize, StreamState.FailWith;
    FinalizeKeeps(s, id);
  }

  lemma ResumePermitSent(s: State, id: nat)
    requires Core(s) && SentOk(s.pending, s.senders, s.wire.ordinary, s.cfg.maxFrameLen) && PermitReady(s, id)
    ensures var t := ResumePermit(s, id); SentOk(t.pending, t.senders, t.wire.ordinary, t.cfg.maxFrameLen)
  {
    hide Core, SentOk, FailEntry, EncodedRequest, Frame;
    var t := ResumePermit(s, id);
    var s0 := s.(inflight := s.inflight.Resume(id), senders := s.senders - {id});
    FailEntryDrops(s0.(inflight := s0.inflight.Release()), id, DeadError(s));
    if id in s.pending {
      var body := EncodedRequest(WireRequest(id, s.senders[id].kind));
      FailEntryDrops(s0.(pending := s.pending[id := s.pending[id].(permit := true)]), id,
                     FrameError(FrameTooLarge(|body|, s.cfg.maxFrameLen)));
    }
    SentAt(s.pending, s.senders, s.wire.ordinary, s.cfg.maxFrameLen, t.pending, t.senders, t.wire.ordinary, id);
  }

  lemma ResumeSlotSent(s: State, id: nat)
    requires Core(s) && SentOk(s.pending, s.senders, s.wire.ordinary, s.cfg.maxFrameLen) && SlotReady(s, id)
    ensures var t := ResumeSlot(s, id); SentOk(t.pending, t.senders, t.wire.ordinary, t.cfg.maxFrameLen)
  {
    hide IdsOk, WireOk, WriterOk, DeadOk, SettledOk, StreamsOk, OriginOk, SendersOk, PermitsOk, SlotsOk, FailEntry;
    hide Queued;
    var t := ResumeSlot(s, id);
    FailEntryDrops(s.(slots := s.slots.Resume(id).Release(), senders := s.senders - {id}), id, DeadError(s));
    if !s.dead {
      assert t.wire.ordinary == s.wire.ordinary + [s.senders[id].request];
      assert Queued(t.wire.ordinary, id) by { LastQueued(s.wire.ordinary, s.senders[id].request); }
    }
    assert id in s.pending && Started(s.pending[id].kind, s.cfg.maxFrameLen) ==> s.pending[id].permit;
    SentAt(s.pending, s.senders, s.wire.ordinary, s.cfg.maxFrameLen, t.pending, t.senders, t.wire.ordinary, id);
  }

  lemma LastQueued(ordinary: seq<WireRequest>, r: WireRequest)
    requires r.requestId >= 0
    ensures Queued(ordinary + [r], r.requestId)
  {
    assert (ordinary + [r])[|ordinary|] == r;
  }

  // ---------------------------------------------------------------------------
  // Streams
  // ---------------------------------------------------------------------------

  lemma CancelStreamCloses(s: State, id: nat)
    requires s.cfg.maxFrameLen >= CANCEL_LEN
    ensures CancelStream(s, id).error.None? && CancelStream(s, id).state.streams == s.streams
  {
    hide SendCancel, Finalize;
    SendCancelThrows(s, id);
    SendCancelKeeps(s, id);
    FinalizeKeeps(SendCancel(s, id).state, id);
  }

  lemma EndStreamClosed(s: State, id: nat, aborted: Option<Error>)
    requires Core(s) && id in s.streams && ClosedOk(s.streams) && s.cfg.maxFrameLen >= CANCEL_LEN
    ensures ClosedOk(EndStream(s, id, aborted).streams)
  {
    hide Core, CancelStream;
    CancelStreamCloses(SetStream(s, id, s.streams[id].StartCancel()), id);
  }

  lemma FailConnectionClosed(s: State, e: Error)
    requires ClosedOk(s.streams)
    ensures ClosedOk(FailConnection(s, e).streams)
  {
    hide Signal, PermitIds, FailedDeferreds;
  }

  lemma FinalizeClosed(s: State, id: nat, o: Settlement, e: Error)
    requires ClosedOk(s.streams)
    ensures Settle(Finalize(s, id), id, o).streams == s.streams && ClosedOk(FailEntry(s, id, e).streams)
  {
  }

  lemma RouteStreamClosed(s: State, id: nat, k: ResponseKind)
    requires Core(s) && id in s.pending && id in s.streams && ClosedOk(s.streams) && s.cfg.maxFrameLen >= CANCEL_LEN
    ensures ClosedOk(RouteRead(s, id, k).state.streams) && ClosedOk(RouteSubscribe(s, id, k).state.streams)
  {
    hide Finalize, CancelStream, Mapped, DeliverAll, IdsOk, PermitsOk, SendersOk, SettledOk, FramesOk, OriginOk;
    hide WireOk, SlotsOk, WriterOk, DeadOk;
    FinalizeKeeps(s, id);
    CancelStreamCloses(s, id);
    if k.ReadEvents? && Mapped(k.events).Some? {
      DeliverAllAppends(s.streams[id], Mapped(k.events).value);
    }
  }

  lemma RouteClosed(s: State, r: WireResponse)
    requires Core(s) && ClosedOk(s.streams) && s.cfg.maxFrameLen >= CANCEL_LEN
    ensures ClosedOk(Route(s, r).state.streams)
  {
    hide RouteRead, RouteSubscribe, FailConnection, Settle, Finalize, HelloSettlement, UnarySettlement, ClosedOk;
    hide PermitsOk, SendersOk, SettledOk, FramesOk, OriginOk, WireOk, SlotsOk, WriterOk, DeadOk, StreamsOk, IdsOk;
    var s1, id := Record(s, r), r.requestId;
    if id in s.pending {
      RecordCore(s, r);
      KnownStream(s, id);
      EntryIssued(s, id);
      match s.pending[id].kind
      case HelloPending => FinalizeClosed(s1, id, HelloSettlement(r.kind), WriteException);
      case UnaryPending(wants) => FinalizeClosed(s1, id, UnarySettlement(wants, r.kind), WriteException);
      case _ => RouteStreamClosed(s1, id, r.kind);
    } else if r.kind.ErrorResponse? {
      FailConnectionClosed(s1, ConnError(Unattributed(ServerError(r.kind.error))));
    }
  }

  lemma {:induction false} RouteAllClosed(s: State, bodies: seq<bytes>)
    requires Core(s) && ClosedOk(s.streams) && s.cfg.maxFrameLen >= CANCEL_LEN
    ensures ClosedOk(RouteAll(s, bodies).streams)
    decreases |bodies|
  {
    hide Core, Route, FailConnection, DecodedResponse, ClosedOk;
    if bodies != [] {
      match DecodedResponse(bodies[0])
      case Err(e) => FailConnectionClosed(s, ConnError(ProtocolFailed(BodyError(e))));
      case Ok(r) =>
        var t := Route(s, r);
        RouteCore(s, r);
        RouteClosed(s, r);
        RouteRecords(s, r);
        if t.error.Some? {
          FailConnectionClosed(t.state, ConnError(ProtocolFailed(t.error.value)));
        } else {
          RouteAllClosed(t.state, bodies[1..]);
        }
    }
  }

  lemma OnDataClosed(s: State, chunk: bytes)
    requires Core(s) && ClosedOk(s.streams) && s.cfg.maxFrameLen >= CANCEL_LEN
    ensures ClosedOk(OnData(s, chunk).streams)
  {
    hide IdsOk, WireOk, DeadOk, SettledOk, StreamsOk, FramesOk, OriginOk, SendersOk, PermitsOk, SlotsOk, WriterOk;
    hide RouteAll, FailConnection, PushResult, ClosedOk;
    var push := PushResult(s.cfg.maxFrameLen, s.buffer, chunk);
    var s1 := s.(buffer := push.1, received := s.received + chunk);
    match push.0
    case Err(e) => FailConnectionClosed(s1, ConnError(FramingFailed(FrameError(e))));
    case Ok(bodies) => RouteAllClosed(s1, bodies);
  }

  lemma OnDataStill(s: State, chunk: bytes)
    requires Core(s)
    ensures Still(s, OnData(s, chunk))
  {
    hide IdsOk, WireOk, DeadOk, SettledOk, StreamsOk, FramesOk, OriginOk, SendersOk, PermitsOk, SlotsOk, WriterOk;
    hide RouteAll, FailConnection, PushResult;
    var push := PushResult(s.cfg.maxFrameLen, s.buffer, chunk);
    var s1 := s.(buffer := push.1, received := s.received + chunk);
    match push.0
    case Err(e) => FailConnectionDeaf(s1, ConnError(FramingFailed(FrameError(e))));
    case Ok(bodies) => RouteAllDecodes(s1, bodies);
  }

  lemma CancelUnaryStreams(s: State, id: nat, e: Error)
    ensures CancelUnary(s, id, e).state.streams == s.streams
  {
    hide SendCancel, Finalize;
    SendCancelKeeps(s, id);
    FinalizeKeeps(SendCancel(s, id).state, id);
  }

  lemma OpenClosed(s: State, request: RequestKind, wants: Wanted, kind: PendingKind, listening: bool,
                   aborted: Option<Error>)
    requires ClosedOk(s.streams)
    ensures ClosedOk(OpenUnary(s, request, wants, aborted).streams)
        && ClosedOk(OpenOther(s, kind, request, listening).streams)
  {
    hide CancelUnary;
    if aborted.Some? {
      CancelUnaryStreams(Register(s, UnaryPending(wants), request, false), s.idCounter + 1, aborted.value);
    }
  }

  lemma SendersClosed(s: State, id: nat)
    requires ClosedOk(s.streams)
    ensures PermitReady(s, id) ==> ClosedOk(ResumePermit(s, id).streams)
    ensures SlotReady(s, id) ==> ClosedOk(ResumeSlot(s, id).streams)
  {
    hide FailEntry, EncodedRequest, Frame, ClosedOk;
    if PermitReady(s, id) {
      var s0 := s.(inflight := s.inflight.Resume(id), senders := s.senders - {id});
      FinalizeClosed(s0.(inflight := s0.inflight.Release()), id, Resolved(HelloReply), DeadError(s));
      if id in s.pending {
        var body := EncodedRequest(WireRequest(id, s.senders[id].kind));
        FinalizeClosed(s0.(pending := s.pending[id := s.pending[id].(permit := true)]), id, Resolved(HelloReply),
                       FrameError(FrameTooLarge(|body|, s.cfg.maxFrameLen)));
      }
    } else if SlotReady(s, id) {
      FinalizeClosed(s.(slots := s.slots.Resume(id).Release(), senders := s.senders - {id}), id, Resolved(HelloReply),
                     DeadError(s));
    }
  }

  lemma WriterClosed(s: State, result: WriteResult)
    requires ClosedOk(s.streams)
    ensures ClosedOk(ResumeWriter(s, result).streams)
  {
    hide FailConnection, Flatten, LastN, ReleaseTimes, ClosedOk;
    FailConnectionClosed(Emptied(s).(writer := Over), ConnError(WriteFailed(WriteException)));
    FailConnectionClosed(s.(writer := Over), ConnError(WriteFailed(DeadError(s))));
  }

  // ---------------------------------------------------------------------------
  // Every turn, every run
  // ---------------------------------------------------------------------------

  /** The turns that open a request or resume a sender. */
  predicate MovesSenders(ev: Event) {
    ev.CallAppend? || ev.CallStats? || ev.CallRead? || ev.CallSubscribe? || ev.PermitResumes? || ev.SlotResumes?
  }

  lemma OtherTurnsStill(s: State, ev: Event)
    requires Core(s) && !MovesSenders(ev) && !ev.Data?
    ensures Still(s, Step(s, ev))
  {
    hide Core, OpenUnary, OpenOther, CancelUnary, EndStream, ResumePermit, ResumeSlot, ResumeWriter;
    hide FailConnection, OnData, PermitReady, SlotReady, IsUnary;
    match ev
    case AbortCall(id, reason) => CancelDeaf(s, id, reason);
    case AbortOfStream(id, reason) => EndStreamDeaf(s, id, Some(reason));
    case CloseOfStream(id) => EndStreamDeaf(s, id, None);
    case WriterResumes(result) => ResumeWriterDeaf(s, result);
    case SocketError => FailConnectionDeaf(s, ConnError(SocketFailed));
    case SocketClosed => FailConnectionDeaf(s, ConnError(Closed));
    case CloseConnection => FailConnectionDeaf(s, ConnError(Closed));
    case _ =>
  }

  lemma StepSent(s: State, ev: Event)
    requires Core(s) && SentOk(s.pending, s.senders, s.wire.ordinary, s.cfg.maxFrameLen)
    ensures var t := Step(s, ev); SentOk(t.pending, t.senders, t.wire.ordinary, t.cfg.maxFrameLen)
  {
    hide Core, OpenUnary, OpenOther, CancelUnary, EndStream, ResumePermit, ResumeSlot, ResumeWriter, SocketGone;
    hide FailConnection, OnData, SetStream, PermitReady, SlotReady, IsUnary, SentOk, Later, ClosedOk, Still;
    if MovesSenders(ev) {
      match ev
      case CallAppend(append, aborted) => OpenUnarySent(s, AppendRequest(append), WantsAppend, aborted);
      case CallStats(aborted) => OpenUnarySent(s, StatsRequest, WantsStats, aborted);
      case CallRead(read, listening) => OpenSent(s, ReadPending, ReadRequest(read), listening);
      case CallSubscribe(subscribe, listening) => OpenSent(s, SubscribePending, SubscribeRequest(subscribe), listening);
      case PermitResumes(id) => if PermitReady(s, id) { ResumePermitSent(s, id); }
      case SlotResumes(id) => if SlotReady(s, id) { ResumeSlotSent(s, id); }
    } else {
      if ev.Data? {
        OnDataStill(s, ev.chunk);
      } else {
        OtherTurnsStill(s, ev);
      }
      StepCore(s, ev);
      StepLater(s, ev);
      SentStill(s, Step(s, ev));
    }
  }

  lemma NextClosed(s: State, id: nat)
    requires ClosedOk(s.streams) && id in s.streams
    ensures ClosedOk(SetStream(s, id, s.streams[id].Next()).streams)
  {
  }

  lemma StepClosed(s: State, ev: Event)
    requires Core(s) && ClosedOk(s.streams) && s.cfg.maxFrameLen >= CANCEL_LEN
    ensures ClosedOk(Step(s, ev).streams)
  {
    hide Core, OpenUnary, OpenOther, CancelUnary, EndStream, ResumePermit, ResumeSlot, ResumeWriter;
    hide FailConnection, OnData, SetStream, PermitReady, SlotReady, IsUnary, ClosedOk;
    match ev
    case CallAppend(append, aborted) => OpenClosed(s, AppendRequest(append), WantsAppend, HelloPending, false, aborted);
    case CallStats(aborted) => OpenClosed(s, StatsRequest, WantsStats, HelloPending, false, aborted);
    case CallRead(read, listening) => OpenClosed(s, ReadRequest(read), WantsStats, ReadPending, listening, None);
    case CallSubscribe(subscribe, listening) =>
      OpenClosed(s, SubscribeRequest(subscribe), WantsStats, SubscribePending, listening, None);
    case AbortCall(id, reason) => CancelUnaryStreams(s, id, reason);
    case AbortOfStream(id, reason) => if id in s.streams { EndStreamClosed(s, id, Some(reason)); }
    case CloseOfStream(id) => if id in s.streams { EndStreamClosed(s, id, None); }
    case NextOfStream(id) => if id in s.streams { NextClosed(s, id); }
    case PermitResumes(id) => SendersClosed(s, id);
    case SlotResumes(id) => SendersClosed(s, id);
    case WriterResumes(result) => WriterClosed(s, result);
    case Drained =>
    case SocketError => FailConnectionClosed(s, ConnError(SocketFailed));
    case SocketClosed => FailConnectionClosed(s, ConnError(Closed));
    case CloseConnection => FailConnectionClosed(s, ConnError(Closed));
    case Data(chunk) => OnDataClosed(s, chunk);
  }

  lemma {:induction false} RunTracked(start: State, events: seq<Event>)
    requires Core(start) && Tracked(start)
    ensures Tracked(Run(start, events))
  {
    hide Core, Step, SentOk, ClosedOk, TablesLater;
    if events != [] {
      var init := events[..|events| - 1];
      RunCore(start, init);
      RunLater(start, init);
      RunTracked(start, init);
      StepSent(Run(start, init), events[|events| - 1]);
      if start.cfg.maxFrameLen >= CANCEL_LEN {
        StepClosed(Run(start, init), events[|events| - 1]);
      }
      StepLater(Run(start, init), events[|events| - 1]);
    }
  }

  lemma ConnectedTracked(cfg: Config, token: Option<bytes>)
    ensures Tracked(Connected(cfg, token))
  {
    hide Core, OpenOther;
    InitCore(cfg);
    OpenSent(Init(cfg), HelloPending, HelloRequest(WireHello(PROTOCOL_VERSION, token)), false);
    OpenClosed(Init(cfg), StatsRequest, WantsStats, HelloPending, false, None);
    HelloStreams(cfg, token);
  }

  lemma HelloStreams(cfg: Config, token: Option<bytes>)
    ensures Connected(cfg, token).streams == map[]
  {
  }

  // ---------------------------------------------------------------------------
  // The runtime's own turns run dry
  // ---------------------------------------------------------------------------

  /** A resolved `await` whose continuation the runtime will run, without any further outside event. */
  predicate Enabled(s: State, ev: Event) {
    match ev
    case PermitResumes(id) => PermitReady(s, id)
    case SlotResumes(id) => SlotReady(s, id)
    case WriterResumes(result) => s.writer == Ready || s.writer == DrainFailed
    case _ => false
  }

  ghost function Awaiting(senders: map<nat, Sender>, slot: bool): set<nat> {
    set id | id in senders && senders[id].AwaitSlot? == slot
  }

  function WriterEffort(gate: Sync.GateState, writer: WriterPc): nat {
    (if gate.signalled then 1 else 0) + (if writer == Ready then 2 else if writer == DrainFailed then 1 else 0)
  }

  /** A bound on the turns left: a sender has two waits ahead of it, and each can wake the writer once. */
  ghost function Effort(s: State): nat {
    4 * |Awaiting(s.senders, false)| + 3 * |Awaiting(s.senders, true)| + WriterEffort(s.gate, s.writer)
  }

  lemma AwaitingLeaves(senders: map<nat, Sender>, id: nat)
    requires id in senders
    ensures |Awaiting(senders - {id}, senders[id].AwaitSlot?)| == |Awaiting(senders, senders[id].AwaitSlot?)| - 1
    ensures Awaiting(senders - {id}, !senders[id].AwaitSlot?) == Awaiting(senders, !senders[id].AwaitSlot?)
  {
    var slot := senders[id].AwaitSlot?;
    assert Awaiting(senders - {id}, slot) == Awaiting(senders, slot) - {id};
  }

  lemma AwaitingJoins(senders: map<nat, Sender>, id: nat, sender: Sender)
    requires id in senders && senders[id].AwaitPermit? && sender.AwaitSlot?
    ensures |Awaiting(senders[id := sender], true)| == |Awaiting(senders, true)| + 1
    ensures |Awaiting(senders[id := sender], false)| == |Awaiting(senders, false)| - 1
  {
    assert Awaiting(senders[id := sender], true) == Awaiting(senders, true) + {id};
    assert Awaiting(senders[id := sender], false) == Awaiting(senders, false) - {id};
  }

  lemma PermitTurnCosts(s: State, id: nat)
    requires PermitReady(s, id)
    ensures Effort(ResumePermit(s, id)) < Effort(s)
  {
    hide FailEntry, EncodedRequest, Frame, Awaiting;
    var s0 := s.(inflight := s.inflight.Resume(id), senders := s.senders - {id});
    FailEntryDrops(s0.(inflight := s0.inflight.Release()), id, DeadError(s));
    AwaitingLeaves(s.senders, id);
    if id in s.pending {
      var request := WireRequest(id, s.senders[id].kind);
      var body := EncodedRequest(request);
      FailEntryDrops(s0.(pending := s.pending[id := s.pending[id].(permit := true)]), id,
                     FrameError(FrameTooLarge(|body|, s.cfg.maxFrameLen)));
      AwaitingJoins(s.senders, id, AwaitSlot(Frame(body), request));
    }
  }

  lemma SlotTurnCosts(s: State, id: nat)
    requires SlotReady(s, id)
    ensures Effort(ResumeSlot(s, id)) < Effort(s)
  {
    hide FailEntry, Awaiting;
    FailEntryDrops(s.(slots := s.slots.Resume(id).Release(), senders := s.senders - {id}), id, DeadError(s));
    AwaitingLeaves(s.senders, id);
  }

  lemma DeathCosts(s: State, e: Error)
    requires s.writer == Over && !s.gate.waiting
    ensures var t := FailConnection(s, e); t.senders == s.senders && WriterEffort(t.gate, Over) <= 1
    ensures s.dead ==> FailConnection(s, e) == s
  {
    hide PermitIds, FailedDeferreds, FailedStreams;
  }

  lemma AwaitGateCosts(s: State)
    ensures var t := AwaitGate(s);
            t.senders == s.senders && WriterEffort(t.gate, t.writer) < WriterEffort(s.gate, Ready)
  {
  }

  lemma RunWriterCosts(s: State, result: WriteResult)
    requires s.writer == Ready && !s.gate.waiting
    ensures Effort(RunWriter(s, result)) < Effort(s)
  {
    hide FailConnection, Flatten, LastN, ReleaseTimes, Awaiting, AwaitGate;
    AwaitGateCosts(s);
    AwaitGateCosts(Written(s));
    DeathCosts(Emptied(s).(writer := Over), ConnError(WriteFailed(WriteException)));
  }

  lemma WriterTurnCosts(s: State, result: WriteResult)
    requires Core(s) && (s.writer == Ready || s.writer == DrainFailed)
    ensures Effort(ResumeWriter(s, result)) < Effort(s)
  {
    hide IdsOk, WireOk, DeadOk, SettledOk, StreamsOk, FramesOk, OriginOk, SendersOk, PermitsOk, SlotsOk;
    hide FailConnection, RunWriter, Awaiting;
    if s.writer == Ready {
      RunWriterCosts(s, result);
    } else {
      DeathCosts(s.(writer := Over), ConnError(WriteFailed(DeadError(s))));
    }
  }

  /**
   * No livelock: every turn the runtime can take on its own uses up effort, so from any state it takes
   * at most `Effort` of them before it must wait for the user or the socket.
   */
  lemma OwnTurnsRunDry(s: State, ev: Event)
    requires Core(s) && Enabled(s, ev)
    ensures Effort(Step(s, ev)) < Effort(s)
  {
    hide Core, Effort, ResumePermit, ResumeSlot, ResumeWriter;
    match ev
    case PermitResumes(id) => PermitTurnCosts(s, id);
    case SlotResumes(id) => SlotTurnCosts(s, id);
    case WriterResumes(result) => WriterTurnCosts(s, result);
  }

  /** A run of own turns only: each is enabled when it is taken. */
  ghost predicate OwnRun(s: State, events: seq<Event>) {
    events == [] ||
    (OwnRun(s, events[..|events| - 1]) && Enabled(Run(s, events[..|events| - 1]), events[|events| - 1]))
  }

  lemma {:induction false} OwnRunIsBounded(s: State, events: seq<Event>)
    requires Core(s) && OwnRun(s, events)
    ensures |events| + Effort(Run(s, events)) <= Effort(s)
  {
    hide Core, Effort, Step, Enabled;
    if events != [] {
      var init := events[..|events| - 1];
      OwnRunIsBounded(s, init);
      RunCore(s, init);
      OwnTurnsRunDry(Run(s, init), events[|events| - 1]);
    }
  }

  // ---------------------------------------------------------------------------
  // When a cancel does not fit a frame
  // ---------------------------------------------------------------------------

  /** What `close` and `onAbort` need: a cancel for this request, sent now, fits a frame, or is not sent. */
  predicate CanCancel(s: State, id: nat) {
    id !in s.pending || s.dead || |EncodedRequest(WireRequest(s.idCounter + 1, CancelRequest(id)))| <= s.cfg.maxFrameLen
  }

  /** Ending an open stream ends its sink exactly when the cancel can be sent; otherwise the entry stays too. */
  lemma EndStreamExactly(s: State, id: nat, aborted: Option<Error>)
    requires Core(s) && id in s.streams && !s.streams[id].closed
    ensures var t := EndStream(s, id, aborted);
            && id in t.streams && t.streams[id].closed
            && (t.streams[id].sink.done <==> CanCancel(s, id))
            && (id !in t.pending <==> CanCancel(s, id))
  {
    hide Finalize, EncodedRequest, Frame, Signal, IdsOk, PermitsOk, SendersOk, SettledOk, FramesOk, OriginOk;
    hide WireOk, SlotsOk, WriterOk, DeadOk;
    var s1 := SetStream(s, id, s.streams[id].StartCancel());
    SendCancelKeeps(s1, id);
    FinalizeKeeps(SendCancel(s1, id).state, id);
  }

  /** Aborting a pending unary call rejects it exactly when the cancel can be sent. */
  lemma CancelUnaryExactly(s: State, id: nat, e: Error)
    requires Core(s) && id in s.pending && IsUnary(s, id)
    ensures var t := CancelUnary(s, id, e).state;
            if CanCancel(s, id) then id !in t.pending && Promise(t, id) == [Rejected(e)]
            else id in t.pending && Promise(t, id) == []
  {
    hide Finalize, EncodedRequest, Frame, Signal, PermitsOk, SendersOk, StreamsOk, FramesOk, OriginOk, WireOk;
    hide SlotsOk, WriterOk, DeadOk;
    SendCancelKeeps(s, id);
    FinalizeKeeps(SendCancel(s, id).state, id);
  }

  /**
   * A protocol violation on a pending stream fails it and drops its entry exactly when the cancel can be
   * sent; otherwise table and streams stay as they are, and the exception is the frame error of the cancel.
   */
  lemma AbortStreamExactly(s: State, id: nat, e: Error)
    requires Core(s) && id in s.streams
    ensures var t := AbortStream(s, id, e);
            if CanCancel(s, id)
            then
              && t.error.None? && t.state.pending == s.pending - {id}
              && t.state.streams == s.streams[id := s.streams[id].FailWith(e)]
            else
              && t.error == Some(FrameError(FrameTooLarge(
                              |EncodedRequest(WireRequest(s.idCounter + 1, CancelRequest(id)))|, s.cfg.maxFrameLen)))
              && t.state.pending == s.pending && t.state.streams == s.streams
  {
    hide Finalize, EncodedRequest, Frame, Signal, StreamState.FailWith, Core;
    SendCancelKeeps(s, id);
    FinalizeKeeps(SendCancel(s, id).state, id);
  }
}
