/**
 * What no turn undoes: a settled promise stays settled as it was, an ended stream stays ended as it
 * was, histories only grow, and death is final. `Later` holds between any state and any it leads to.
 */
module ConnOrder {
  import opened Base
  import opened Messages
  import opened Framing
  import Sync
  import opened Streams
  import opened Errors
  import opened ConnState
  import opened ConnInv

  /** Ended streams take nothing more and keep their outcome; open ones only take more. */
  ghost predicate StreamLater(a: StreamState<StreamItem>, b: StreamState<StreamItem>) {
    && (a.closed ==> b.closed) && a.cancels <= b.cancels
    && a.sink.settled <= b.sink.settled && a.sink.refused <= b.sink.refused
    && a.sink.Accepted() <= b.sink.Accepted()
    && (a.sink.done ==>
          b.sink.done && b.sink.error == a.sink.error && b.watermark == a.watermark
          && b.sink.Accepted() == a.sink.Accepted())
  }

  /** Requests keep what they asked; a settled promise gains nothing; an id once out of the table stays out. */
  ghost predicate TablesLater(s: State, t: State) {
    && (forall id :: id in s.issued ==>
          id in t.issued && t.issued[id] == s.issued[id]
          && (id in t.pending ==>
                id in s.pending && t.pending[id].kind == s.pending[id].kind
                    && (s.pending[id].permit ==> t.pending[id].permit)))
    && (forall id :: id in s.deferreds ==> id in t.deferreds && s.deferreds[id] <= t.deferreds[id])
    && (forall id :: id in s.streams ==> id in t.streams && StreamLater(s.streams[id], t.streams[id]))
  }

  ghost predicate WireLater(a: Wire, b: Wire) {
    && a.ordinary <= b.ordinary && a.cancels <= b.cancels && a.sent <= b.sent && a.written <= b.written
  }

  /** After death no queue and no byte of the log changes. */
  ghost predicate DeathLater(s: State, t: State) {
    s.dead ==> t.dead && t.cause == s.cause && t.wire == s.wire && t.stranded == s.stranded && t.deathId == s.deathId
  }

  ghost predicate InputLater(s: State, t: State) {
    && s.received <= t.received && s.routed <= t.routed && s.refusals <= t.refusals
    && s.cfg == t.cfg && s.idCounter <= t.idCounter
  }

  ghost predicate Later(s: State, t: State) {
    TablesLater(s, t) && WireLater(s.wire, t.wire) && DeathLater(s, t) && InputLater(s, t)
  }

  lemma PrefixTrans<T>(a: seq<T>, b: seq<T>, c: seq<T>)
    requires a <= b <= c
    ensures a <= c
  {
  }

  lemma StreamLaterTrans(a: StreamState<StreamItem>, b: StreamState<StreamItem>, c: StreamState<StreamItem>)
    requires StreamLater(a, b) && StreamLater(b, c)
    ensures StreamLater(a, c)
  {
    hide SinkState.Accepted;
    PrefixTrans(a.sink.settled, b.sink.settled, c.sink.settled);
    PrefixTrans(a.sink.Accepted(), b.sink.Accepted(), c.sink.Accepted());
  }

  lemma TablesLaterTrans(s: State, t: State, u: State)
    requires TablesLater(s, t) && TablesLater(t, u)
    ensures TablesLater(s, u)
  {
    hide StreamLater;
    forall id | id in s.deferreds
      ensures id in u.deferreds && s.deferreds[id] <= u.deferreds[id]
    {
      PrefixTrans(s.deferreds[id], t.deferreds[id], u.deferreds[id]);
    }
    forall id | id in s.streams
      ensures id in u.streams && StreamLater(s.streams[id], u.streams[id])
    {
      StreamLaterTrans(s.streams[id], t.streams[id], u.streams[id]);
    }
  }

  lemma LaterTrans(s: State, t: State, u: State)
    requires Later(s, t) && Later(t, u)
    ensures Later(s, u)
  {
    hide TablesLater;
    TablesLaterTrans(s, t, u);
  }

  lemma StreamLaterSelf(st: StreamState<StreamItem>)
    ensures StreamLater(st, st)
  {
    hide SinkState.Accepted;
  }

  lemma StreamsLaterSelf(streams: map<nat, StreamState<StreamItem>>)
    ensures forall id :: id in streams ==> StreamLater(streams[id], streams[id])
  {
    hide SinkState.Accepted;
  }

  /** A turn that leaves the four tables alone. */
  lemma SameTables(s: State, t: State)
    requires t.pending == s.pending && t.deferreds == s.deferreds && t.streams == s.streams && t.issued == s.issued
    ensures TablesLater(s, t)
  {
    hide StreamLater;
    StreamsLaterSelf(s.streams);
  }

  lemma LaterSelf(s: State)
    ensures Later(s, s)
  {
    hide TablesLater;
    SameTables(s, s);
  }

  // ---------------------------------------------------------------------------
  // The stream's own operations
  // ---------------------------------------------------------------------------

  /** A change of the sink alone. */
  lemma SinkOps(st: StreamState<StreamItem>, sink: SinkState<StreamItem>)
    requires st.sink.settled <= sink.settled && st.sink.refused <= sink.refused
    requires st.sink.Accepted() <= sink.Accepted()
    requires st.sink.done ==> sink.done && sink.error == st.sink.error && sink.Accepted() == st.sink.Accepted()
    ensures StreamLater(st, st.(sink := sink)) && StreamLater(st, st.MarkClosed().(sink := sink))
    ensures !st.sink.done ==> forall w :: StreamLater(st, st.MarkClosed().(sink := sink, watermark := w))
  {
    hide SinkState.Accepted;
  }

  lemma StreamOps(st: StreamState<StreamItem>, item: StreamItem, e: Error, w: int)
    requires st.Valid()
    ensures StreamLater(st, st.Deliver(item)) && StreamLater(st, st.FailWith(e)) && StreamLater(st, st.Next())
    ensures StreamLater(st, st.StartCancel()) && StreamLater(st, st.(sink := st.sink.Finish()))
    ensures StreamLater(st, st.(sink := st.sink.Fail(e)))
    ensures !st.sink.done ==> StreamLater(st, st.EndWith(w))
  {
    hide StreamLater, SinkState.Accepted;
    AcceptedAfter(st.sink, item, e);
    SinkOps(st, st.sink.Push(item));
    SinkOps(st, st.sink.Fail(e));
    SinkOps(st, st.sink.Finish());
    SinkOps(st, st.sink.Next());
    StartCancelLater(st);
  }

  lemma StartCancelLater(st: StreamState<StreamItem>)
    ensures StreamLater(st, st.StartCancel())
  {
    hide SinkState.Accepted;
  }

  lemma {:induction false} DeliverAllLater(st: StreamState<StreamItem>, items: seq<StreamItem>)
    requires st.Valid()
    ensures StreamLater(st, DeliverAll(st, items))
  {
    hide SinkState.Accepted;
    if items != [] {
      var init, last := items[..|items| - 1], items[|items| - 1];
      DeliverAllAppends(st, init);
      DeliverAllLater(st, init);
      StreamOps(DeliverAll(st, init), last, WriteException, 0);
      StreamLaterTrans(st, DeliverAll(st, init), DeliverAll(st, items));
    }
  }

  // ---------------------------------------------------------------------------
  // Bookkeeping
  // ---------------------------------------------------------------------------

  lemma SettleLater(s: State, id: nat, o: Settlement)
    requires id in s.deferreds
    ensures Later(s, Settle(Finalize(s, id), id, o))
  {
    hide StreamLater;
    StreamsLaterSelf(s.streams);
  }

  lemma CloseStreamLater(s: State, id: nat, st: StreamState<StreamItem>)
    requires id in s.streams && StreamLater(s.streams[id], st)
    ensures Later(s, SetStream(Finalize(s, id), id, st)) && Later(s, SetStream(s, id, st))
  {
    hide StreamLater, Sync.Sem.Release;
    StreamsLaterSelf(s.streams);
  }

  lemma FailEntryLater(s: State, id: nat, e: Error)
    requires Core(s)
    ensures Later(s, FailEntry(s, id, e))
  {
    hide PermitsOk, SendersOk, WireOk, OriginOk, FramesOk, SlotsOk, WriterOk, DeadOk, SettledOk, Later, IdsOk;
    LaterSelf(s);
    if id in s.pending {
      EntryKnown(s, id);
      if IsCall(s.pending[id].kind) {
        SettleLater(s, id, Rejected(e));
      } else {
        StreamOps(s.streams[id], CaughtUpItem(0), e, 0);
        CloseStreamLater(s, id, s.streams[id].FailWith(e));
      }
    }
  }

  lemma FailConnectionLater(s: State, e: Error)
    requires StreamsOk(s.pending, s.streams)
    ensures Later(s, FailConnection(s, e))
  {
    hide SinkState.Accepted, StreamLater, PermitIds;
    if s.dead {
      LaterSelf(s);
    } else {
      forall id | id in s.streams
        ensures StreamLater(s.streams[id], FailedStreams(s, e)[id])
      {
        StreamOps(s.streams[id], CaughtUpItem(0), e, 0);
        StreamLaterSelf(s.streams[id]);
      }
    }
  }

  // ---------------------------------------------------------------------------
  // Cancelling and opening
  // ---------------------------------------------------------------------------

  lemma SendCancelLater(s: State, target: nat)
    ensures Later(s, SendCancel(s, target).state)
  {
    hide EncodedRequest, Frame, Signal, TablesLater;
    SendCancelKeeps(s, target);
    SameTables(s, SendCancel(s, target).state);
  }

  lemma CancelUnaryLater(s: State, id: nat, e: Error)
    requires Core(s) && IsUnary(s, id)
    ensures Later(s, CancelUnary(s, id, e).state)
  {
    hide PermitsOk, SendersOk, WireOk, OriginOk, FramesOk, SlotsOk, WriterOk, DeadOk, SettledOk, StreamsOk;
    hide SendCancel, Finalize, Later;
    LaterSelf(s);
    if id in s.pending {
      SendCancelLater(s, id);
      SendCancelKeeps(s, id);
      var t := SendCancel(s, id);
      if t.error.None? {
        SettleLater(t.state, id, Rejected(e));
        LaterTrans(s, t.state, Settle(Finalize(t.state, id), id, Rejected(e)));
      }
    }
  }

  /** Cancelling a stream and then ending its sink. */
  lemma CancelStreamLater(s: State, id: nat, st: StreamState<StreamItem>)
    requires id in s.streams && StreamLater(s.streams[id], st)
    ensures var t := CancelStream(s, id);
            Later(s, if t.error.None? then SetStream(t.state, id, st) else t.state)
  {
    hide SendCancel, Finalize, Later, StreamLater;
    if id in s.pending {
      SendCancelLater(s, id);
      SendCancelKeeps(s, id);
      var t := SendCancel(s, id);
      if t.error.None? {
        CloseStreamLater(t.state, id, st);
        LaterTrans(s, t.state, SetStream(Finalize(t.state, id), id, st));
      }
    } else {
      CloseStreamLater(s, id, st);
    }
  }

  lemma EndStreamLater(s: State, id: nat, aborted: Option<Error>)
    requires Core(s) && id in s.streams
    ensures Later(s, EndStream(s, id, aborted))
  {
    hide PermitsOk, SendersOk, WireOk, OriginOk, FramesOk, SlotsOk, WriterOk, DeadOk, SettledOk, IdsOk;
    hide CancelStream, Later, StreamLater;
    var st := s.streams[id];
    LaterSelf(s);
    if !st.closed {
      var st1 := st.StartCancel();
      var s1 := SetStream(s, id, st1);
      var e := if aborted.Some? then aborted.value else WriteException;
      StreamOps(st, CaughtUpItem(0), e, 0);
      StreamOps(st1, CaughtUpItem(0), e, 0);
      CloseStreamLater(s, id, st1);
      SetStreamCore(s, id, st1);
      var sink := if aborted.Some? then st.sink.Fail(aborted.value) else st.sink.Finish();
      CancelStreamLater(s1, id, st1.(sink := sink));
      CancelStreamCore(s1, id, st1.(sink := sink));
      LaterTrans(s, s1, EndStream(s, id, aborted));
    }
  }

  lemma RegisterLater(s: State, kind: PendingKind, request: RequestKind, listening: bool)
    requires Core(s)
    ensures Later(s, Register(s, kind, request, listening))
  {
    hide PermitsOk, SendersOk, WireOk, OriginOk, FramesOk, SlotsOk, WriterOk, DeadOk, SettledOk, StreamsOk;
    hide StreamLater;
    StreamsLaterSelf(s.streams);
    assert s.idCounter + 1 !in s.issued;
  }

  lemma StartSenderLater(s: State, id: nat, request: RequestKind)
    ensures Later(s, StartSender(s, id, request))
  {
    hide TablesLater;
    SameTables(s, StartSender(s, id, request));
  }

  lemma OpenUnaryLater(s: State, request: RequestKind, wants: Wanted, aborted: Option<Error>)
    requires Core(s) && KindMatches(UnaryPending(wants), request)
    ensures Later(s, OpenUnary(s, request, wants, aborted))
  {
    hide Core, Later, CancelUnary;
    if s.dead {
      RefusedLater(s);
    } else {
      var id, s1 := s.idCounter + 1, Register(s, UnaryPending(wants), request, false);
      RegisterCore(s, UnaryPending(wants), request, false) by { assert Core(s); }
      RegisterLater(s, UnaryPending(wants), request, false);
      if aborted.None? {
        StartSenderLater(s1, id, request);
        LaterTrans(s, s1, StartSender(s1, id, request));
      } else {
        CancelUnaryLater(s1, id, aborted.value);
        var t := CancelUnary(s1, id, aborted.value);
        LaterTrans(s, s1, t.state);
        if t.error.None? {
          StartSenderLater(t.state, id, request);
          LaterTrans(s, t.state, StartSender(t.state, id, request));
        }
      }
    }
  }

  lemma RefusedLater(s: State)
    ensures Later(s, s.(refusals := s.refusals + [DeadError(s)]))
  {
    hide TablesLater;
    SameTables(s, s.(refusals := s.refusals + [DeadError(s)]));
  }

  lemma OpenOtherLater(s: State, kind: PendingKind, request: RequestKind, listening: bool)
    requires Core(s)
    ensures Later(s, OpenOther(s, kind, request, listening))
  {
    hide Core, Later;
    var s1 := Register(s, kind, request, listening);
    RegisterLater(s, kind, request, listening);
    StartSenderLater(s1, s.idCounter + 1, request);
    LaterTrans(s, s1, OpenOther(s, kind, request, listening));
  }

  // ---------------------------------------------------------------------------
  // Senders and the writer
  // ---------------------------------------------------------------------------

  lemma AbandonLater(s: State, id: nat)
    ensures Later(s, Abandon(s, id))
  {
    hide TablesLater;
    SameTables(s, Abandon(s, id));
  }

  lemma TakePermitLater(s: State, id: nat)
    requires id in s.pending
    ensures Later(s, TakePermit(s, id))
  {
    hide StreamLater;
    StreamsLaterSelf(s.streams);
  }

  lemma ResumePermitLater(s: State, id: nat)
    requires Core(s) && PermitReady(s, id)
    ensures Later(s, ResumePermit(s, id))
  {
    hide Core, Later, EncodedRequest, Frame, FailEntry;
    if id !in s.pending || s.dead {
      AbandonCore(s, id);
      AbandonLater(s, id);
      FailEntryLater(Abandon(s, id), id, DeadError(s));
      LaterTrans(s, Abandon(s, id), FailEntry(Abandon(s, id), id, DeadError(s)));
    } else {
      var s1, request := TakePermit(s, id), WireRequest(id, s.senders[id].kind);
      var body := EncodedRequest(request);
      TakePermitCore(s, id);
      TakePermitLater(s, id);
      if |body| > s.cfg.maxFrameLen {
        var e := FrameError(FrameTooLarge(|body|, s.cfg.maxFrameLen));
        FailEntryLater(s1, id, e);
        LaterTrans(s, s1, FailEntry(s1, id, e));
      } else {
        var t := ResumePermit(s, id);
        assert t == s1.(senders := t.senders, slots := t.slots);
        SameTables(s1, t);
        LaterTrans(s, s1, t) by { assert Later(s1, t) by { ParkLater(s1, t); } }
      }
    }
  }

  lemma ParkLater(s: State, t: State)
    requires t == s.(senders := t.senders, slots := t.slots, inflight := t.inflight, gate := t.gate, writer := t.writer)
    ensures Later(s, t)
  {
    hide TablesLater;
    SameTables(s, t);
  }

  lemma PushFrameLater(s: State, id: nat)
    requires SlotReady(s, id) && !s.dead
    ensures Later(s, ResumeSlot(s, id))
  {
    hide TablesLater, Signal;
    var w := s.wire.(outbound := s.wire.outbound + [s.senders[id].frame],
                     ordinary := s.wire.ordinary + [s.senders[id].request]);
    var s1 := s.(slots := s.slots.Resume(id), senders := s.senders - {id}, wire := w);
    SignalKeeps(s1);
    SameTables(s, ResumeSlot(s, id));
  }

  lemma SignalKeeps(s: State)
    ensures Signal(s) == s.(gate := Signal(s).gate, writer := Signal(s).writer)
  {
  }

  lemma ResumeSlotLater(s: State, id: nat)
    requires Core(s) && SlotReady(s, id)
    ensures Later(s, ResumeSlot(s, id))
  {
    hide IdsOk, WireOk, WriterOk, DeadOk, SettledOk, StreamsOk, FramesOk, OriginOk, SendersOk, PermitsOk, FailEntry;
    hide Later;
    if s.dead {
      var s1 := s.(slots := s.slots.Resume(id).Release(), senders := s.senders - {id});
      SenderWakes(s.senders, s.inflight, s.slots, s.pending, id);
      SenderGone(s.senders, s.wire.ordinary, s.wire.cancels, s.issued, s.cfg.maxFrameLen, s.idCounter, id);
      ParkLater(s, s1);
      FailEntryLater(s1, id, DeadError(s));
      LaterTrans(s, s1, FailEntry(s1, id, DeadError(s)));
    } else {
      PushFrameLater(s, id);
    }
  }

  /** A write that throws loses its batch, but the connection dies in the same turn. */
  lemma WriteThrowsLater(s: State)
    requires Core(s) && !s.dead
    ensures var taken := s.(wire := s.wire.(priority := [], outbound := []), writer := Over);
            Later(s, FailConnection(taken, ConnError(WriteFailed(WriteException))).(writer := Over))
  {
    hide IdsOk, WireOk, DeadOk, SettledOk, StreamsOk, FramesOk, OriginOk, SendersOk, PermitsOk, SlotsOk, WriterOk;
    hide FailConnection, TablesLater;
    var taken := s.(wire := s.wire.(priority := [], outbound := []), writer := Over);
    var e := ConnError(WriteFailed(WriteException));
    var dead := FailConnection(taken, e);
    SameTables(s, taken);
    FailConnectionLater(taken, e);
    LaterTrans(s, taken, dead);
    ParkLater(dead, dead.(writer := Over));
    LaterTrans(s, dead, dead.(writer := Over));
  }

  lemma WrittenLater(s: State)
    requires !s.dead
    ensures Later(s, Written(s))
  {
    hide Flatten, ReleaseTimes, Batch, TablesLater;
    SameTables(s, Written(s));
  }

  lemma AwaitGateLater(s: State)
    ensures Later(s, AwaitGate(s))
  {
    hide Later;
    ParkLater(s, AwaitGate(s));
  }

  lemma RunWriterLater(s: State, result: WriteResult)
    requires Core(s) && s.writer == Ready
    ensures Later(s, RunWriter(s, result))
  {
    hide Core, Later, Flatten, FailConnection, LastN, ReleaseTimes, AwaitGate;
    if s.dead {
      ParkLater(s, s.(writer := Over));
    } else if s.wire.priority == [] && s.wire.outbound == [] {
      AwaitGateLater(s);
    } else if result == Throws {
      WriteThrowsLater(s);
    } else {
      var s1 := Written(s);
      WrittenLater(s);
      ParkLater(s1, s1.(writer := Draining));
      AwaitGateLater(s1);
      LaterTrans(s, s1, RunWriter(s, result));
    }
  }

  lemma ResumeWriterLater(s: State, result: WriteResult)
    requires Core(s)
    ensures Later(s, ResumeWriter(s, result))
  {
    hide IdsOk, WireOk, DeadOk, SettledOk, StreamsOk, FramesOk, OriginOk, SendersOk, PermitsOk, SlotsOk, RunWriter;
    hide Later;
    LaterSelf(s);
    if s.writer == Ready {
      RunWriterLater(s, result);
    } else if s.writer == DrainFailed {
      ParkLater(s, s.(writer := Over));
    }
  }

  lemma SocketGoneLater(s: State, reason: ConnReason)
    requires Core(s)
    ensures Later(s, SocketGone(s, reason))
  {
    hide IdsOk, WireOk, DeadOk, SettledOk, StreamsOk, FramesOk, OriginOk, SendersOk, PermitsOk, SlotsOk;
    hide FailConnection, Later;
    var s1 := FailConnection(s, ConnError(reason));
    FailConnectionLater(s, ConnError(reason));
    ParkLater(s1, s1.(writer := DrainFailed));
    LaterTrans(s, s1, s1.(writer := DrainFailed));
  }

  // ---------------------------------------------------------------------------
  // The reader
  // ---------------------------------------------------------------------------

  lemma AbortStreamLater(s: State, id: nat, e: Error)
    requires Core(s) && id in s.streams
    ensures Later(s, AbortStream(s, id, e).state)
  {
    hide IdsOk, WireOk, DeadOk, SettledOk, FramesOk, OriginOk, SendersOk, PermitsOk, SlotsOk, WriterOk;
    hide CancelStream, Later;
    FailWithEnds(s.streams[id], e);
    StreamOps(s.streams[id], CaughtUpItem(0), e, 0);
    CancelStreamLater(s, id, s.streams[id].FailWith(e));
    CancelStreamCore(s, id, s.streams[id].FailWith(e));
  }

  lemma RouteStreamLater(s: State, id: nat, k: ResponseKind)
    requires Core(s) && id in s.pending && !IsCall(s.pending[id].kind)
    ensures Later(s, Dispatch(s, id, k).state)
  {
    hide WireOk, DeadOk, SettledOk, FramesOk, OriginOk, SendersOk, PermitsOk, SlotsOk, WriterOk;
    hide AbortStream, Mapped, DeliverAll, Finalize, Later, StreamLater;
    EntryKnown(s, id);
    var st := s.streams[id];
    AbortStreamLater(s, id, ProtocolError(MissingEvent));
    AbortStreamLater(s, id, ProtocolError(UnexpectedKind));
    match k
    case ReadEvents(events) =>
      if Mapped(events).Some? {
        DeliverAllLater(st, Mapped(events).value);
        CloseStreamLater(s, id, DeliverAll(st, Mapped(events).value));
      }
    case ReadEnd(w) =>
      StreamOps(st, CaughtUpItem(0), WriteException, w);
      CloseStreamLater(s, id, st.EndWith(w));
    case CaughtUp(w) =>
      StreamOps(st, CaughtUpItem(w), WriteException, w);
      CloseStreamLater(s, id, st.Deliver(CaughtUpItem(w)));
    case ErrorResponse(e) =>
      StreamOps(st, CaughtUpItem(0), ServerError(e), 0);
      CloseStreamLater(s, id, st.FailWith(ServerError(e)));
    case _ =>
  }

  lemma RecordLater(s: State, r: WireResponse)
    ensures Later(s, Record(s, r))
  {
    hide TablesLater;
    SameTables(s, Record(s, r));
  }

  lemma RouteLater(s: State, r: WireResponse)
    requires Core(s)
    ensures Later(s, Route(s, r).state)
  {
    hide WireOk, DeadOk, SettledOk, StreamsOk, FramesOk, OriginOk, SendersOk, PermitsOk, SlotsOk, WriterOk, IdsOk;
    hide RouteRead, RouteSubscribe, FailConnection, Finalize, Later;
    var s1, id := Record(s, r), r.requestId;
    RecordLater(s, r);
    RecordCore(s, r);
    if id == 0 {
      if r.kind.ErrorResponse? {
        FailConnectionLater(s1, ConnError(Unattributed(ServerError(r.kind.error))));
      }
    } else if id in s.pending {
      EntryKnown(s1, id);
      if IsCall(s.pending[id].kind) {
        match s.pending[id].kind
        case HelloPending => SettleLater(s1, id, HelloSettlement(r.kind));
        case UnaryPending(wants) => SettleLater(s1, id, UnarySettlement(wants, r.kind));
      } else {
        RouteStreamLater(s1, id, r.kind);
      }
    }
    LaterSelf(s1);
    LaterTrans(s, s1, Route(s, r).state);
  }

  lemma {:induction false} RouteAllLater(s: State, bodies: seq<bytes>)
    requires Core(s)
    ensures Later(s, RouteAll(s, bodies))
    decreases |bodies|
  {
    hide Core, Route, FailConnection, DecodedResponse, Later;
    LaterSelf(s);
    if bodies != [] {
      match DecodedResponse(bodies[0])
      case Err(e) =>
        FailConnectionLaterCore(s, ConnError(ProtocolFailed(BodyError(e))));
      case Ok(r) =>
        var t := Route(s, r);
        RouteCore(s, r);
        RouteLater(s, r);
        if t.error.Some? {
          FailConnectionLaterCore(t.state, ConnError(ProtocolFailed(t.error.value)));
        } else {
          RouteAllLater(t.state, bodies[1..]);
        }
        LaterTrans(s, t.state, RouteAll(s, bodies));
    }
  }

  lemma FailConnectionLaterCore(s: State, e: Error)
    requires Core(s)
    ensures Later(s, FailConnection(s, e))
  {
    FailConnectionLater(s, e);
  }

  lemma OnDataLater(s: State, chunk: bytes)
    requires Core(s)
    ensures Later(s, OnData(s, chunk))
  {
    hide IdsOk, WireOk, DeadOk, SettledOk, StreamsOk, FramesOk, OriginOk, SendersOk, PermitsOk, SlotsOk, WriterOk;
    hide RouteAll, FailConnection, PushResult, TablesLater;
    var push := PushResult(s.cfg.maxFrameLen, s.buffer, chunk);
    var s1 := s.(buffer := push.1, received := s.received + chunk);
    SameTables(s, s1);
    match push.0
    case Err(e) =>
      FailConnectionLater(s1, ConnError(FramingFailed(FrameError(e))));
      LaterTrans(s, s1, OnData(s, chunk));
    case Ok(bodies) =>
      RouteAllLater(s1, bodies);
      LaterTrans(s, s1, OnData(s, chunk));
  }

  // ---------------------------------------------------------------------------
  // Every turn, every run
  // ---------------------------------------------------------------------------

  lemma NextLater(s: State, id: nat)
    requires Core(s) && id in s.streams
    ensures Later(s, SetStream(s, id, s.streams[id].Next()))
  {
    hide IdsOk, WireOk, DeadOk, SettledOk, FramesOk, OriginOk, SendersOk, PermitsOk, SlotsOk, WriterOk, Later;
    hide StreamLater;
    StreamOps(s.streams[id], CaughtUpItem(0), WriteException, 0);
    CloseStreamLater(s, id, s.streams[id].Next());
  }

  lemma StepLater(s: State, ev: Event)
    requires Core(s)
    ensures Later(s, Step(s, ev))
  {
    hide Core, OpenUnary, OpenOther, CancelUnary, EndStream, ResumePermit, ResumeSlot, ResumeWriter, SocketGone;
    hide FailConnection, OnData, SetStream, PermitReady, SlotReady, IsUnary, Later;
    LaterSelf(s);
    match ev
    case CallAppend(append, aborted) => OpenUnaryLater(s, AppendRequest(append), WantsAppend, aborted);
    case CallStats(aborted) => OpenUnaryLater(s, StatsRequest, WantsStats, aborted);
    case CallRead(read, listening) => OpenOtherLater(s, ReadPending, ReadRequest(read), listening);
    case CallSubscribe(subscribe, listening) =>
      OpenOtherLater(s, SubscribePending, SubscribeRequest(subscribe), listening);
    case AbortCall(id, reason) => if IsUnary(s, id) { CancelUnaryLater(s, id, reason); }
    case AbortOfStream(id, reason) => if id in s.streams { EndStreamLater(s, id, Some(reason)); }
    case CloseOfStream(id) => if id in s.streams { EndStreamLater(s, id, None); }
    case NextOfStream(id) => if id in s.streams { NextLater(s, id); }
    case PermitResumes(id) => if PermitReady(s, id) { ResumePermitLater(s, id); }
    case SlotResumes(id) => if SlotReady(s, id) { ResumeSlotLater(s, id); }
    case WriterResumes(result) => ResumeWriterLater(s, result);
    case Drained => if s.writer == Draining { ParkLater(s, s.(writer := Ready)); }
    case SocketError => SocketGoneLater(s, SocketFailed);
    case SocketClosed => SocketGoneLater(s, Closed);
    case CloseConnection => FailConnectionLaterCore(s, ConnError(Closed));
    case Data(chunk) => OnDataLater(s, chunk);
  }

  /** Whatever happens after a state, in any number of turns, is later than it. */
  lemma {:induction false} RunLater(start: State, events: seq<Event>)
    requires Core(start)
    ensures Later(start, Run(start, events))
  {
    hide Core, Step, Later;
    if events == [] {
      LaterSelf(start);
    } else {
      var before := Run(start, events[..|events| - 1]);
      RunCore(start, events[..|events| - 1]);
      RunLater(start, events[..|events| - 1]);
      StepLater(before, events[|events| - 1]);
      LaterTrans(start, before, Run(start, events));
    }
  }
}
