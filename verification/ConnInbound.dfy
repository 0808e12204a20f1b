/**
 * The inbound direction: while the connection lives, what has been routed is the one-shot parse of
 * everything received, decoded frame by frame, however the bytes were split into chunks.
 */
module ConnInbound {
  import opened Base
  import opened Messages
  import opened Framing
  import Sync
  import opened Streams
  import opened Errors
  import opened ConnState
  import opened ConnInv
  import opened ConnOrder

  /** The frames, in order, decode to the responses routed from `from` on. */
  ghost predicate DecodeTo(frames: seq<bytes>, routed: seq<Routed>, from: nat) {
    |routed| == from + |frames|
    && forall i :: 0 <= i < |frames| ==> DecodedResponse(frames[i]) == Ok(routed[from + i].response)
  }

  ghost predicate InboundOk(s: State) {
    !s.dead ==>
      var p := Parse(s.cfg.maxFrameLen, s.received);
      p.oversized.None? && p.rest == s.buffer && DecodeTo(p.frames, s.routed, 0)
  }

  /** A turn that reads nothing. */
  predicate Deaf(s: State, t: State) {
    t.buffer == s.buffer && t.received == s.received && t.routed == s.routed && t.cfg == s.cfg
  }

  /** A turn in which no request is opened and no sender moves on. */
  predicate Still(s: State, t: State) {
    t.senders == s.senders && t.issued == s.issued
  }

  /** A turn in which no ordinary request is queued and nothing is written. */
  predicate Unwritten(s: State, t: State) {
    t.wire.ordinary == s.wire.ordinary && t.wire.sent == s.wire.sent
  }

  lemma FinalizeDeaf(s: State, id: nat)
    ensures Deaf(s, Finalize(s, id)) && Still(s, Finalize(s, id))
    ensures Finalize(s, id).dead == s.dead
    ensures Unwritten(s, Finalize(s, id))
  {
  }

  lemma SendCancelDeaf(s: State, target: nat)
    ensures Deaf(s, SendCancel(s, target).state) && Still(s, SendCancel(s, target).state)
    ensures SendCancel(s, target).state.dead == s.dead
    ensures Unwritten(s, SendCancel(s, target).state)
  {
    SendCancelKeeps(s, target);
  }

  lemma CancelDeaf(s: State, id: nat, e: Error)
    ensures Deaf(s, CancelUnary(s, id, e).state) && Deaf(s, CancelStream(s, id).state)
    ensures Still(s, CancelUnary(s, id, e).state) && Still(s, CancelStream(s, id).state)
    ensures CancelUnary(s, id, e).state.dead == s.dead && CancelStream(s, id).state.dead == s.dead
    ensures Unwritten(s, CancelUnary(s, id, e).state) && Unwritten(s, CancelStream(s, id).state)
  {
    hide SendCancel, Finalize;
    SendCancelDeaf(s, id);
    FinalizeDeaf(SendCancel(s, id).state, id);
  }

  lemma EndStreamDeaf(s: State, id: nat, aborted: Option<Error>)
    ensures Deaf(s, EndStream(s, id, aborted)) && Still(s, EndStream(s, id, aborted))
    ensures EndStream(s, id, aborted).dead == s.dead
    ensures Unwritten(s, EndStream(s, id, aborted))
  {
    hide CancelStream, SinkState.Fail, SinkState.Finish, StreamState.StartCancel;
    CancelDeaf(SetStream(s, id, StreamAt(s, id).StartCancel()), id, WriteException);
  }

  lemma RegisterDeaf(s: State, kind: PendingKind, request: RequestKind, listening: bool, id: nat)
    ensures var t := Register(s, kind, request, listening); Deaf(s, t) && Unwritten(s, t) && t.dead == s.dead
    ensures var t := StartSender(s, id, request); Deaf(s, t) && Unwritten(s, t) && t.dead == s.dead
  {
    hide IsCall, NewStream, Sync.Sem.Acquire;
  }

  lemma OpenDeaf(s: State, request: RequestKind, wants: Wanted, kind: PendingKind, listening: bool,
                 aborted: Option<Error>)
    ensures var t := OpenUnary(s, request, wants, aborted); Deaf(s, t) && Unwritten(s, t) && t.dead == s.dead
    ensures var t := OpenOther(s, kind, request, listening); Deaf(s, t) && Unwritten(s, t) && t.dead == s.dead
  {
    hide CancelUnary, Register, StartSender;
    var id, s1 := s.idCounter + 1, Register(s, UnaryPending(wants), request, false);
    RegisterDeaf(s, kind, request, listening, id);
    RegisterDeaf(s, UnaryPending(wants), request, false, id);
    RegisterDeaf(Register(s, kind, request, listening), kind, request, listening, id);
    RegisterDeaf(s1, kind, request, listening, id);
    if aborted.Some? {
      CancelDeaf(s1, id, aborted.value);
      RegisterDeaf(CancelUnary(s1, id, aborted.value).state, kind, request, listening, id);
    }
  }

  lemma FailEntryDeaf(s: State, id: nat, e: Error)
    ensures Deaf(s, FailEntry(s, id, e)) && Still(s, FailEntry(s, id, e))
    ensures FailEntry(s, id, e).dead == s.dead
    ensures Unwritten(s, FailEntry(s, id, e))
  {
    hide Finalize;
    FinalizeDeaf(s, id);
  }

  lemma FailConnectionDeaf(s: State, e: Error)
    ensures Deaf(s, FailConnection(s, e)) && Still(s, FailConnection(s, e))
    ensures Unwritten(s, FailConnection(s, e))
  {
  }

  lemma ResumePermitDeaf(s: State, id: nat)
    requires PermitReady(s, id)
    ensures Deaf(s, ResumePermit(s, id))
    ensures ResumePermit(s, id).dead == s.dead
    ensures Unwritten(s, ResumePermit(s, id))
  {
    hide FailEntry, EncodedRequest, Frame;
    var s0 := s.(inflight := s.inflight.Resume(id), senders := s.senders - {id});
    FailEntryDeaf(s0.(inflight := s0.inflight.Release()), id, DeadError(s));
    if id in s.pending {
      var body := EncodedRequest(WireRequest(id, s.senders[id].kind));
      FailEntryDeaf(s0.(pending := s.pending[id := s.pending[id].(permit := true)]), id,
                    FrameError(FrameTooLarge(|body|, s.cfg.maxFrameLen)));
    }
  }

  lemma ResumeSlotDeaf(s: State, id: nat)
    requires SlotReady(s, id)
    ensures Deaf(s, ResumeSlot(s, id))
    ensures ResumeSlot(s, id).dead == s.dead
  {
    hide FailEntry;
    FailEntryDeaf(s.(slots := s.slots.Resume(id).Release(), senders := s.senders - {id}), id, DeadError(s));
  }

  lemma ResumeWriterDeaf(s: State, result: WriteResult)
    ensures Deaf(s, ResumeWriter(s, result)) && Still(s, ResumeWriter(s, result))
  {
    hide FailConnection, RunWriter;
    RunWriterDeaf(s, result);
    FailConnectionDeaf(s.(writer := Over), ConnError(WriteFailed(DeadError(s))));
  }

  lemma RunWriterDeaf(s: State, result: WriteResult)
    ensures Deaf(s, RunWriter(s, result)) && Still(s, RunWriter(s, result))
  {
    hide FailConnection, Written, AwaitGate;
    if s.dead {
    } else if s.wire.priority == [] && s.wire.outbound == [] {
      AwaitGateDeaf(s);
    } else if result == Throws {
      FailConnectionDeaf(Emptied(s).(writer := Over), ConnError(WriteFailed(WriteException)));
    } else {
      WrittenDeaf(s);
      AwaitGateDeaf(Written(s));
    }
  }

  lemma WrittenDeaf(s: State)
    ensures Deaf(s, Written(s)) && Still(s, Written(s))
  {
    hide Flatten, Batch, ReleaseTimes;
  }

  lemma AwaitGateDeaf(s: State)
    ensures Deaf(s, AwaitGate(s)) && Still(s, AwaitGate(s)) && AwaitGate(s).dead == s.dead
    ensures Unwritten(s, AwaitGate(s))
  {
  }

  /** A call of the user: a turn that opens a request. */
  predicate Opens(ev: Event) {
    ev.CallAppend? || ev.CallStats? || ev.CallRead? || ev.CallSubscribe?
  }

  lemma CallDeaf(s: State, ev: Event)
    requires Opens(ev)
    ensures Deaf(s, Step(s, ev)) && Unwritten(s, Step(s, ev))
  {
    hide OpenUnary, OpenOther;
    match ev
    case CallAppend(append, aborted) => OpenDeaf(s, AppendRequest(append), WantsAppend, HelloPending, false, aborted);
    case CallStats(aborted) => OpenDeaf(s, StatsRequest, WantsStats, HelloPending, false, aborted);
    case CallRead(read, listening) => OpenDeaf(s, ReadRequest(read), WantsStats, ReadPending, listening, None);
    case CallSubscribe(subscribe, listening) =>
      OpenDeaf(s, SubscribeRequest(subscribe), WantsStats, SubscribePending, listening, None);
  }

  /** An abort, a close or a `next` of the user, on a request opened before. */
  predicate Touches(ev: Event) {
    ev.AbortCall? || ev.AbortOfStream? || ev.CloseOfStream? || ev.NextOfStream?
  }

  lemma CallerDeaf(s: State, ev: Event)
    requires Touches(ev)
    ensures Deaf(s, Step(s, ev)) && Unwritten(s, Step(s, ev))
  {
    hide CancelUnary, EndStream, IsUnary, StreamState.Next;
    match ev
    case AbortCall(id, reason) => CancelDeaf(s, id, reason);
    case AbortOfStream(id, reason) => EndStreamDeaf(s, id, Some(reason));
    case CloseOfStream(id) => EndStreamDeaf(s, id, None);
    case NextOfStream(id) =>
  }

  lemma OwnDeaf(s: State, ev: Event)
    requires !ev.Data? && !Opens(ev) && !Touches(ev)
    ensures Deaf(s, Step(s, ev))
  {
    hide ResumePermit, ResumeSlot, ResumeWriter, FailConnection, PermitReady, SlotReady;
    match ev
    case PermitResumes(id) => if PermitReady(s, id) { ResumePermitDeaf(s, id); }
    case SlotResumes(id) => if SlotReady(s, id) { ResumeSlotDeaf(s, id); }
    case WriterResumes(result) => ResumeWriterDeaf(s, result);
    case Drained =>
    case SocketError => FailConnectionDeaf(s, ConnError(SocketFailed));
    case SocketClosed => FailConnectionDeaf(s, ConnError(Closed));
    case CloseConnection => FailConnectionDeaf(s, ConnError(Closed));
  }

  lemma DeafTurn(s: State, ev: Event)
    requires !ev.Data?
    ensures Deaf(s, Step(s, ev))
  {
    hide Step;
    if Opens(ev) {
      CallDeaf(s, ev);
    } else if Touches(ev) {
      CallerDeaf(s, ev);
    } else {
      OwnDeaf(s, ev);
    }
  }

  // ---------------------------------------------------------------------------
  // Routing
  // ---------------------------------------------------------------------------

  lemma AbortStreamDeaf(s: State, id: nat, e: Error)
    ensures Deaf(s, AbortStream(s, id, e).state) && Still(s, AbortStream(s, id, e).state)
    ensures Unwritten(s, AbortStream(s, id, e).state)
  {
    hide CancelStream, StreamState.FailWith;
    CancelDeaf(s, id, e);
  }

  lemma RouteStreamDeaf(s: State, id: nat, k: ResponseKind)
    ensures Deaf(s, RouteRead(s, id, k).state) && Deaf(s, RouteSubscribe(s, id, k).state)
    ensures Still(s, RouteRead(s, id, k).state) && Still(s, RouteSubscribe(s, id, k).state)
    ensures Unwritten(s, RouteRead(s, id, k).state) && Unwritten(s, RouteSubscribe(s, id, k).state)
  {
    hide Finalize, AbortStream, Mapped, DeliverAll, StreamState.FailWith, StreamState.EndWith, StreamState.Deliver;
    FinalizeDeaf(s, id);
    AbortStreamDeaf(s, id, ProtocolError(MissingEvent));
    AbortStreamDeaf(s, id, ProtocolError(UnexpectedKind));
  }

  lemma DispatchDeaf(s: State, id: nat, k: ResponseKind)
    requires id in s.pending
    ensures Deaf(s, Dispatch(s, id, k).state) && Still(s, Dispatch(s, id, k).state)
    ensures Unwritten(s, Dispatch(s, id, k).state)
  {
    hide Finalize, RouteRead, RouteSubscribe, HelloSettlement, UnarySettlement;
    FinalizeDeaf(s, id);
    RouteStreamDeaf(s, id, k);
  }

  lemma RouteRecords(s: State, r: WireResponse)
    ensures Deaf(Record(s, r), Route(s, r).state) && Still(s, Route(s, r).state)
    ensures Unwritten(s, Route(s, r).state)
  {
    hide Dispatch, FailConnection;
    var s1 := Record(s, r);
    if r.requestId in s.pending {
      DispatchDeaf(s1, r.requestId, r.kind);
    }
    if r.kind.ErrorResponse? {
      FailConnectionDeaf(s1, ConnError(Unattributed(ServerError(r.kind.error))));
    }
  }

  lemma FailConnectionDies(s: State, e: Error)
    ensures FailConnection(s, e).dead
  {
  }

  /** If the connection survives a batch of frames, all of them were decoded and routed, in order. */
  lemma {:induction false} RouteAllDecodes(s: State, bodies: seq<bytes>)
    requires Core(s)
    ensures var t := RouteAll(s, bodies);
            && t.buffer == s.buffer && t.received == s.received && t.cfg == s.cfg && Still(s, t) && Unwritten(s, t)
            && (!t.dead ==> !s.dead && s.routed <= t.routed && DecodeTo(bodies, t.routed, |s.routed|))
    decreases |bodies|
  {
    hide Core, Route, FailConnection, DecodedResponse, Later;
    if bodies != [] {
      match DecodedResponse(bodies[0])
      case Err(e) =>
        FailConnectionDeaf(s, ConnError(ProtocolFailed(BodyError(e))));
        FailConnectionDies(s, ConnError(ProtocolFailed(BodyError(e))));
      case Ok(r) =>
        var t := Route(s, r);
        RouteRecords(s, r);
        if t.error.Some? {
          FailConnectionDeaf(t.state, ConnError(ProtocolFailed(t.error.value)));
          FailConnectionDies(t.state, ConnError(ProtocolFailed(t.error.value)));
        } else {
          RouteCore(s, r);
          RouteAllDecodes(t.state, bodies[1..]);
          StillAlive(s, t.state) by { RouteLater(s, r); }
          var u := RouteAll(s, bodies);
          if !u.dead {
            DecodeToCons(bodies, u.routed, s.routed, Routed(r, r.requestId in s.pending));
          }
        }
    }
  }

  lemma StillAlive(s: State, t: State)
    requires Later(s, t)
    ensures s.dead ==> t.dead
  {
  }

  lemma DecodeToCons(bodies: seq<bytes>, routed: seq<Routed>, before: seq<Routed>, r: Routed)
    requires bodies != [] && DecodedResponse(bodies[0]) == Ok(r.response)
    requires before + [r] <= routed && DecodeTo(bodies[1..], routed, |before| + 1)
    ensures before <= routed && DecodeTo(bodies, routed, |before|)
  {
    hide DecodedResponse;
    assert routed[|before|] == (before + [r])[|before|] == r;
    forall i | 0 <= i < |bodies|
      ensures DecodedResponse(bodies[i]) == Ok(routed[|before| + i].response)
    {
      if i > 0 {
        assert bodies[1..][i - 1] == bodies[i];
      }
    }
  }

  lemma OnDataInbound(s: State, chunk: bytes)
    requires Core(s) && InboundOk(s)
    ensures InboundOk(OnData(s, chunk))
  {
    hide IdsOk, WireOk, DeadOk, SettledOk, StreamsOk, FramesOk, OriginOk, SendersOk, PermitsOk, SlotsOk, WriterOk;
    hide RouteAll, FailConnection, Parse, DecodedResponse;
    var max := s.cfg.maxFrameLen;
    var push := PushResult(max, s.buffer, chunk);
    var s1 := s.(buffer := push.1, received := s.received + chunk);
    match push.0
    case Err(e) => FailConnectionDies(s1, ConnError(FramingFailed(FrameError(e))));
    case Ok(bodies) =>
      RouteAllDecodes(s1, bodies);
      var t := RouteAll(s1, bodies);
      if !t.dead {
        ParseResumes(max, s.received, chunk);
        var p := Parse(max, s.received);
        forall i | 0 <= i < |p.frames + bodies|
          ensures DecodedResponse((p.frames + bodies)[i]) == Ok(t.routed[i].response)
        {
          if i < |p.frames| {
            assert t.routed[i] == s1.routed[i];
          }
        }
      }
  }

  lemma StepInbound(s: State, ev: Event)
    requires Core(s) && InboundOk(s)
    ensures InboundOk(Step(s, ev))
  {
    hide Core, Parse, DecodedResponse, DecodeTo, Later;
    if ev.Data? {
      hide Step, OnData, InboundOk;
      StepData(s, ev.chunk);
      OnDataInbound(s, ev.chunk);
    } else {
      hide Step;
      DeafTurn(s, ev);
      StepLater(s, ev);
      StillAlive(s, Step(s, ev));
    }
  }

  lemma StepData(s: State, chunk: bytes)
    ensures Step(s, Data(chunk)) == OnData(s, chunk)
  {
    hide OnData;
  }

  lemma {:induction false} RunInbound(start: State, events: seq<Event>)
    requires Core(start) && InboundOk(start)
    ensures InboundOk(Run(start, events))
  {
    hide Core, Step, InboundOk;
    if events != [] {
      RunCore(start, events[..|events| - 1]);
      RunInbound(start, events[..|events| - 1]);
      StepInbound(Run(start, events[..|events| - 1]), events[|events| - 1]);
    }
  }

  lemma ConnectedInbound(cfg: Config, token: Option<bytes>)
    ensures InboundOk(Connected(cfg, token))
  {
    var request := HelloRequest(WireHello(PROTOCOL_VERSION, token));
    hide OpenOther;
    OpenDeaf(Init(cfg), request, WantsStats, HelloPending, false, None);
  }

  // ---------------------------------------------------------------------------
  // A frame for one id leaves every other request alone
  // ---------------------------------------------------------------------------

  /** Everything about one request: its entry, its answers, its sender. */
  predicate SameRequest(s: State, t: State, id: nat) {
    && (id in t.pending <==> id in s.pending)
    && (id in s.pending ==> t.pending[id] == s.pending[id])
    && Promise(t, id) == Promise(s, id) && StreamAt(t, id) == StreamAt(s, id)
    && t.senders == s.senders
  }

  lemma AbortStreamLocal(s: State, id: nat, e: Error, x: nat)
    requires x != id
    ensures SameRequest(s, AbortStream(s, id, e).state, x)
  {
    hide SendCancel, StreamState.FailWith;
    SendCancelKeeps(s, id);
  }

  lemma CloseLocal(s: State, id: nat, st: StreamState<StreamItem>, o: Settlement, x: nat)
    requires x != id
    ensures SameRequest(s, SetStream(s, id, st), x) && SameRequest(s, SetStream(Finalize(s, id), id, st), x)
    ensures SameRequest(s, Settle(Finalize(s, id), id, o), x)
  {
    hide Finalize;
    FinalizeKeeps(s, id);
  }

  lemma RouteStreamLocal(s: State, id: nat, k: ResponseKind, x: nat)
    requires x != id
    ensures SameRequest(s, RouteRead(s, id, k).state, x) && SameRequest(s, RouteSubscribe(s, id, k).state, x)
  {
    hide AbortStream, Mapped, DeliverAll, SetStream, Finalize, SameRequest, StreamState.EndWith;
    hide StreamState.FailWith, StreamState.Deliver;
    var st := StreamAt(s, id);
    AbortStreamLocal(s, id, ProtocolError(MissingEvent), x);
    AbortStreamLocal(s, id, ProtocolError(UnexpectedKind), x);
    FinalizeKeeps(s, id);
    match k
    case ReadEvents(events) =>
      if Mapped(events).Some? { CloseLocal(s, id, DeliverAll(st, Mapped(events).value), Resolved(HelloReply), x); }
    case ReadEnd(w) => CloseLocal(s, id, st.EndWith(w), Resolved(HelloReply), x);
    case ErrorResponse(e) => CloseLocal(s, id, st.FailWith(ServerError(e)), Resolved(HelloReply), x);
    case CaughtUp(w) => CloseLocal(s, id, st.Deliver(CaughtUpItem(w)), Resolved(HelloReply), x);
    case _ =>
  }

  /**
   * Routing a response leaves the table entry, the promise, the stream and the sender of every other
   * request as they were, unless it is an error the server could not attribute.
   */
  lemma RouteIsLocal(s: State, r: WireResponse, x: nat)
    requires r.requestId != x && !(r.requestId == 0 && r.kind.ErrorResponse?)
    ensures SameRequest(s, Route(s, r).state, x)
  {
    hide RouteRead, RouteSubscribe, FailConnection, Settle, Finalize, HelloSettlement, UnarySettlement;
    var s1, id := Record(s, r), r.requestId;
    if id in s.pending {
      RouteStreamLocal(s1, id, r.kind, x);
      match s.pending[id].kind
      case HelloPending => CloseLocal(s1, id, NewStream(false), HelloSettlement(r.kind), x);
      case UnaryPending(wants) => CloseLocal(s1, id, NewStream(false), UnarySettlement(wants, r.kind), x);
      case _ =>
    }
  }
}
