/** What the histories of a run say: what each cancel cancels, and what each consumer was given. */
module ConnHistory {
  import opened Base
  import opened Messages
  import opened Framing
  import opened Streams
  import opened Errors
  import opened ConnState
  import opened ConnInv
  import opened ConnOrder
  import opened ConnDemux
  import opened ConnInbound
  import opened ConnProgress

  /** Each cancel is for a request that was asked, is no longer in the table, and is not the hello. */
  ghost predicate CancelsFor(cancels: seq<WireRequest>, pending: map<nat, Pending>, issued: map<nat, RequestKind>) {
    forall i :: 0 <= i < |cancels| ==> Abandoned(cancels[i], pending, issued)
  }

  ghost predicate Abandoned(c: WireRequest, pending: map<nat, Pending>, issued: map<nat, RequestKind>) {
    c.kind.CancelRequest? && c.kind.target in issued && c.kind.target !in pending
    && !issued[c.kind.target].HelloRequest?
  }

  /** No request is cancelled twice. */
  ghost predicate CancelsOnce(cancels: seq<WireRequest>) {
    forall i, j :: 0 <= i < j < |cancels| ==> cancels[i].kind != cancels[j].kind
  }

  /** What each stream has answered and buffers are its items in order, and then its outcome. */
  ghost predicate AnswersOk(streams: map<nat, StreamState<StreamItem>>) {
    forall id :: id in streams ==> InOrder(streams[id].sink)
  }

  ghost predicate History(s: State) {
    CancelsFor(s.wire.cancels, s.pending, s.issued) && CancelsOnce(s.wire.cancels) && AnswersOk(s.streams)
  }

  /** No cancel was issued, or one, for a request that `s` had in its table or did not know. */
  ghost predicate CancelsAtMostOne(s: State, t: State) {
    || t.wire.cancels == s.wire.cancels
    || (&& |t.wire.cancels| == |s.wire.cancels| + 1 && s.wire.cancels <= t.wire.cancels
        && var c := t.wire.cancels[|s.wire.cancels|];
           && Abandoned(c, t.pending, t.issued)
           && (c.kind.target in s.pending || c.kind.target !in s.issued))
  }

  ghost predicate Keeps(s: State, t: State) {
    CancelsAtMostOne(s, t) && (AnswersOk(s.streams) ==> AnswersOk(t.streams))
  }

  lemma CancelsKept(s: State, t: State)
    requires CancelsFor(s.wire.cancels, s.pending, s.issued) && CancelsOnce(s.wire.cancels)
    requires CancelsAtMostOne(s, t) && TablesLater(s, t)
    ensures CancelsFor(t.wire.cancels, t.pending, t.issued) && CancelsOnce(t.wire.cancels)
  {
    hide StreamLater;
    var n := |s.wire.cancels|;
    forall i | 0 <= i < |t.wire.cancels|
      ensures Abandoned(t.wire.cancels[i], t.pending, t.issued)
    {
      if i < n {
        assert t.wire.cancels[i] == s.wire.cancels[i];
        assert Abandoned(s.wire.cancels[i], s.pending, s.issued);
      }
    }
    forall i, j | 0 <= i < j < |t.wire.cancels|
      ensures t.wire.cancels[i].kind != t.wire.cancels[j].kind
    {
      assert t.wire.cancels[i] == s.wire.cancels[i];
      assert Abandoned(s.wire.cancels[i], s.pending, s.issued);
      if j < n {
        assert t.wire.cancels[j] == s.wire.cancels[j];
      }
    }
  }

  lemma HistoryKept(s: State, t: State)
    requires History(s) && Keeps(s, t) && Later(s, t)
    ensures History(t)
  {
    hide CancelsFor, CancelsOnce, AnswersOk, CancelsAtMostOne, TablesLater;
    CancelsKept(s, t);
  }

  // ---------------------------------------------------------------------------
  // Streams
  // ---------------------------------------------------------------------------

  lemma StreamInOrder(st: StreamState<StreamItem>, item: StreamItem, e: Error, w: int)
    requires InOrder(st.sink)
    ensures InOrder(st.Deliver(item).sink) && InOrder(st.FailWith(e).sink) && InOrder(st.EndWith(w).sink)
    ensures InOrder(st.Next().sink) && InOrder(st.StartCancel().sink)
    ensures InOrder(st.sink.Fail(e)) && InOrder(st.sink.Finish())
  {
    hide InOrder, SinkState.Push, SinkState.Finish, SinkState.Fail, SinkState.Next;
    StaysInOrder(st.sink, item, e);
  }

  lemma {:induction false} DeliverAllInOrder(st: StreamState<StreamItem>, items: seq<StreamItem>)
    requires InOrder(st.sink)
    ensures InOrder(DeliverAll(st, items).sink)
  {
    hide InOrder, StreamState.Deliver;
    if items != [] {
      var init := items[..|items| - 1];
      DeliverAllInOrder(st, init);
      StreamInOrder(DeliverAll(st, init), items[|items| - 1], WriteException, 0);
    }
  }

  lemma AtInOrder(s: State, id: nat)
    requires AnswersOk(s.streams)
    ensures InOrder(StreamAt(s, id).sink)
  {
    hide InOrder;
    NewInOrder<StreamItem>();
  }

  lemma SetKeeps(s: State, t: State, id: nat, st: StreamState<StreamItem>)
    requires t.streams == s.streams && t.wire == s.wire && (AnswersOk(s.streams) ==> InOrder(st.sink))
    ensures Keeps(s, SetStream(t, id, st))
  {
    hide InOrder;
  }

  // ---------------------------------------------------------------------------
  // Ending entries
  // ---------------------------------------------------------------------------

  lemma FailEntryKeeps(s: State, id: nat, e: Error)
    ensures Keeps(s, FailEntry(s, id, e))
  {
    hide Finalize, InOrder, StreamState.FailWith, Keeps, AnswersOk;
    FinalizeKeeps(s, id);
    NothingKeeps(s, FailEntry(s, id, e));
    if AnswersOk(s.streams) {
      AtInOrder(s, id);
      StreamInOrder(StreamAt(s, id), CaughtUpItem(0), e, 0);
    }
    SetKeeps(s, Finalize(s, id), id, StreamAt(s, id).FailWith(e));
  }

  lemma NothingKeeps(s: State, t: State)
    ensures t.streams == s.streams && t.wire == s.wire ==> Keeps(s, t)
  {
  }

  lemma FailConnectionKeeps(s: State, e: Error)
    ensures Keeps(s, FailConnection(s, e))
  {
    hide InOrder, PermitIds, Signal, FailedDeferreds, StreamState.FailWith;
    if AnswersOk(s.streams) {
      forall id | id in s.streams
        ensures InOrder(s.streams[id].FailWith(e).sink)
      {
        StreamInOrder(s.streams[id], CaughtUpItem(0), e, 0);
      }
    }
  }

  // ---------------------------------------------------------------------------
  // Cancelling
  // ---------------------------------------------------------------------------

  /** Cancelling an entry and dropping it is one step for the history; a throwing cancel adds nothing. */
  lemma CancelAdds(s: State, id: nat)
    requires id in s.pending && id in s.issued && !s.issued[id].HelloRequest?
    ensures var t := SendCancel(s, id);
            CancelsAtMostOne(s, if t.error.Some? then t.state else Finalize(t.state, id))
  {
    hide EncodedRequest, Frame, Signal;
    SendCancelKeeps(s, id);
    FinalizeKeeps(SendCancel(s, id).state, id);
  }

  lemma CancelKeeps(s: State, id: nat, e: Error)
    requires id in s.pending ==> id in s.issued && !s.issued[id].HelloRequest?
    ensures CancelsAtMostOne(s, CancelUnary(s, id, e).state) && CancelUnary(s, id, e).state.streams == s.streams
    ensures CancelsAtMostOne(s, CancelStream(s, id).state) && CancelStream(s, id).state.streams == s.streams
  {
    hide SendCancel, Finalize;
    if id in s.pending {
      CancelAdds(s, id);
      SendCancelKeeps(s, id);
      FinalizeKeeps(SendCancel(s, id).state, id);
    }
  }

  lemma StreamNotHello(s: State, id: nat)
    requires Core(s) && id in s.streams && id in s.pending
    ensures id in s.issued && !s.issued[id].HelloRequest?
  {
    KnownStream(s, id);
    EntryIssued(s, id);
  }

  lemma AbortStreamKeeps(s: State, id: nat, e: Error)
    requires Core(s) && id in s.streams
    ensures Keeps(s, AbortStream(s, id, e).state)
  {
    hide Core, CancelStream, InOrder, StreamState.FailWith;
    if id in s.pending {
      StreamNotHello(s, id);
    }
    CancelKeeps(s, id, e);
    if AnswersOk(s.streams) {
      StreamInOrder(s.streams[id], CaughtUpItem(0), e, 0);
    }
  }

  lemma EndStreamKeeps(s: State, id: nat, aborted: Option<Error>)
    requires Core(s) && id in s.streams
    ensures Keeps(s, EndStream(s, id, aborted))
  {
    hide Core, CancelStream, AnswersOk, InOrder, SinkState.Fail, SinkState.Finish, CancelsAtMostOne;
    if id in s.pending {
      StreamNotHello(s, id);
    }
    NothingKeeps(s, s);
    var s1 := SetStream(s, id, s.streams[id].StartCancel());
    CancelKeeps(s1, id, WriteException);
    CancelsFromMarked(s, id, CancelStream(s1, id).state);
    if AnswersOk(s.streams) {
      AtInOrder(s, id);
      StreamInOrder(s.streams[id], CaughtUpItem(0), if aborted.Some? then aborted.value else WriteException, 0);
      SetInOrder(s.streams, id, s1.streams[id]);
      SetInOrder(s1.streams, id, EndStream(s, id, aborted).streams[id]);
    }
  }

  lemma CancelsFromMarked(s: State, id: nat, t: State)
    requires id in s.streams && CancelsAtMostOne(SetStream(s, id, s.streams[id].StartCancel()), t)
    ensures forall st :: CancelsAtMostOne(s, SetStream(t, id, st))
    ensures CancelsAtMostOne(s, t)
  {
  }

  lemma SetInOrder(streams: map<nat, StreamState<StreamItem>>, id: nat, st: StreamState<StreamItem>)
    requires AnswersOk(streams) && InOrder(st.sink)
    ensures AnswersOk(streams[id := st])
  {
    hide InOrder;
  }

  // ---------------------------------------------------------------------------
  // Opening and sending
  // ---------------------------------------------------------------------------

  lemma RegisterKeeps(s: State, kind: PendingKind, request: RequestKind, listening: bool)
    ensures var t := Register(s, kind, request, listening);
            t.wire == s.wire && (AnswersOk(s.streams) ==> AnswersOk(t.streams))
  {
    hide InOrder;
    NewInOrder<StreamItem>();
  }

  lemma OpenUnaryKeeps(s: State, request: RequestKind, wants: Wanted, aborted: Option<Error>)
    requires Core(s) && !request.HelloRequest?
    ensures Keeps(s, OpenUnary(s, request, wants, aborted))
  {
    hide IdsOk, WireOk, DeadOk, SettledOk, StreamsOk, FramesOk, OriginOk, SendersOk, PermitsOk, SlotsOk, WriterOk;
    hide AnswersOk, CancelUnary, Sync.Sem.Acquire;
    var id, s1 := s.idCounter + 1, Register(s, UnaryPending(wants), request, false);
    RegisterKeeps(s, UnaryPending(wants), request, false);
    if aborted.Some? {
      FreshId(s);
      CancelKeeps(s1, id, aborted.value);
    }
  }

  lemma FreshId(s: State)
    requires Core(s)
    ensures s.idCounter + 1 !in s.issued
  {
  }

  lemma OpenKeeps(s: State, kind: PendingKind, request: RequestKind, listening: bool)
    ensures Keeps(s, OpenOther(s, kind, request, listening))
  {
    hide AnswersOk, Register;
    RegisterKeeps(s, kind, request, listening);
  }

  lemma ResumePermitKeeps(s: State, id: nat)
    requires PermitReady(s, id)
    ensures Keeps(s, ResumePermit(s, id))
  {
    hide FailEntry, EncodedRequest, Frame, AnswersOk;
    var s0 := s.(inflight := s.inflight.Resume(id), senders := s.senders - {id});
    FailEntryKeeps(s0.(inflight := s0.inflight.Release()), id, DeadError(s));
    if id in s.pending {
      var body := EncodedRequest(WireRequest(id, s.senders[id].kind));
      FailEntryKeeps(s0.(pending := s.pending[id := s.pending[id].(permit := true)]), id,
                     FrameError(FrameTooLarge(|body|, s.cfg.maxFrameLen)));
    }
  }

  lemma ResumeSlotKeeps(s: State, id: nat)
    requires SlotReady(s, id)
    ensures Keeps(s, ResumeSlot(s, id))
  {
    hide FailEntry, AnswersOk;
    FailEntryKeeps(s.(slots := s.slots.Resume(id).Release(), senders := s.senders - {id}), id, DeadError(s));
  }

  lemma RunWriterKeeps(s: State, result: WriteResult)
    ensures Keeps(s, RunWriter(s, result))
  {
    hide FailConnection, Flatten, LastN, ReleaseTimes, AnswersOk, Batch;
    FailConnectionKeeps(Emptied(s).(writer := Over), ConnError(WriteFailed(WriteException)));
  }

  lemma WriterKeeps(s: State, result: WriteResult)
    ensures Keeps(s, ResumeWriter(s, result))
  {
    hide FailConnection, RunWriter, AnswersOk;
    RunWriterKeeps(s, result);
    FailConnectionKeeps(s.(writer := Over), ConnError(WriteFailed(DeadError(s))));
  }

  // ---------------------------------------------------------------------------
  // Routing
  // ---------------------------------------------------------------------------

  lemma RouteStreamKeeps(s: State, id: nat, k: ResponseKind)
    requires Core(s) && id in s.streams
    ensures Keeps(s, RouteRead(s, id, k).state) && Keeps(s, RouteSubscribe(s, id, k).state)
  {
    hide Core, Finalize, AbortStream, Mapped, DeliverAll, InOrder, AnswersOk, Keeps;
    hide StreamState.Deliver, StreamState.EndWith, StreamState.FailWith;
    var st := s.streams[id];
    FinalizeKeeps(s, id);
    AbortStreamKeeps(s, id, ProtocolError(MissingEvent));
    AbortStreamKeeps(s, id, ProtocolError(UnexpectedKind));
    if AnswersOk(s.streams) {
      AtInOrder(s, id);
      StreamInOrder(st, CaughtUpItem(if k.CaughtUp? then k.watermark else 0),
                    if k.ErrorResponse? then ServerError(k.error) else WriteException,
                    if k.ReadEnd? then k.watermark else 0);
      if k.ReadEvents? && Mapped(k.events).Some? {
        DeliverAllInOrder(st, Mapped(k.events).value);
      }
    }
    match k
    case ReadEvents(events) => if Mapped(events).Some? { SetKeeps(s, s, id, DeliverAll(st, Mapped(events).value)); }
    case ReadEnd(w) => SetKeeps(s, Finalize(s, id), id, st.EndWith(w));
    case ErrorResponse(e) => SetKeeps(s, Finalize(s, id), id, st.FailWith(ServerError(e)));
    case CaughtUp(w) => SetKeeps(s, s, id, st.Deliver(CaughtUpItem(w)));
    case _ =>
  }

  lemma CallKeeps(s: State, id: nat, o: Settlement)
    ensures Keeps(s, Settle(Finalize(s, id), id, o))
  {
    hide Finalize, AnswersOk;
    FinalizeKeeps(s, id);
  }

  lemma RecordedKeeps(s: State, r: WireResponse, t: State)
    requires Keeps(Record(s, r), t)
    ensures Keeps(s, t)
  {
    hide AnswersOk;
  }

  lemma RouteKeeps(s: State, r: WireResponse)
    requires Core(s)
    ensures Keeps(s, Route(s, r).state)
  {
    hide Core, RouteRead, RouteSubscribe, FailConnection, Settle, Finalize, HelloSettlement, UnarySettlement, Keeps;
    var s1, id := Record(s, r), r.requestId;
    RecordCore(s, r);
    NothingKeeps(s1, s1);
    if id == 0 {
      FailConnectionKeeps(s1, ConnError(Unattributed(ServerError(if r.kind.ErrorResponse? then r.kind.error
                                                                 else WireErrorResponse(0, [], None, false)))));
    } else if id in s.pending {
      KnownStream(s1, id);
      match s.pending[id].kind
      case HelloPending => CallKeeps(s1, id, HelloSettlement(r.kind));
      case UnaryPending(wants) => CallKeeps(s1, id, UnarySettlement(wants, r.kind));
      case _ => RouteStreamKeeps(s1, id, r.kind);
    }
    RecordedKeeps(s, r, Route(s, r).state);
  }

  lemma FailHistory(s: State, e: Error)
    requires Core(s) && History(s)
    ensures History(FailConnection(s, e))
  {
    hide Core, History, Keeps, FailConnection, Later;
    FailConnectionKeeps(s, e);
    FailConnectionLaterCore(s, e);
    HistoryKept(s, FailConnection(s, e));
  }

  lemma {:induction false} RouteAllHistory(s: State, bodies: seq<bytes>)
    requires Core(s) && History(s)
    ensures History(RouteAll(s, bodies))
    decreases |bodies|
  {
    hide Core, History, Keeps, Route, FailConnection, DecodedResponse, Later;
    if bodies != [] {
      match DecodedResponse(bodies[0])
      case Err(e) => FailHistory(s, ConnError(ProtocolFailed(BodyError(e))));
      case Ok(r) =>
        var t := Route(s, r);
        RouteCore(s, r);
        RouteLater(s, r);
        RouteKeeps(s, r);
        HistoryKept(s, t.state);
        if t.error.Some? {
          FailHistory(t.state, ConnError(ProtocolFailed(t.error.value)));
        } else {
          RouteAllHistory(t.state, bodies[1..]);
        }
    }
  }

  lemma OnDataHistory(s: State, chunk: bytes)
    requires Core(s) && History(s)
    ensures History(OnData(s, chunk))
  {
    hide IdsOk, WireOk, DeadOk, SettledOk, StreamsOk, FramesOk, OriginOk, SendersOk, PermitsOk, SlotsOk, WriterOk;
    hide RouteAll, FailConnection, PushResult, CancelsFor, CancelsOnce, AnswersOk;
    var push := PushResult(s.cfg.maxFrameLen, s.buffer, chunk);
    var s1 := s.(buffer := push.1, received := s.received + chunk);
    match push.0
    case Err(e) => FailHistory(s1, ConnError(FramingFailed(FrameError(e))));
    case Ok(bodies) => RouteAllHistory(s1, bodies);
  }

  // ---------------------------------------------------------------------------
  // Every turn, every run
  // ---------------------------------------------------------------------------

  lemma UnaryNotHello(s: State, id: nat)
    requires IsUnary(s, id)
    ensures id in s.issued && !s.issued[id].HelloRequest?
  {
  }

  lemma UserKeeps(s: State, ev: Event)
    requires Core(s) && (Opens(ev) || Touches(ev))
    ensures Keeps(s, Step(s, ev))
  {
    hide Core, OpenUnary, OpenOther, CancelUnary, EndStream, IsUnary, AnswersOk, InOrder, StreamState.Next;
    match ev
    case CallAppend(append, aborted) => OpenUnaryKeeps(s, AppendRequest(append), WantsAppend, aborted);
    case CallStats(aborted) => OpenUnaryKeeps(s, StatsRequest, WantsStats, aborted);
    case CallRead(read, listening) => OpenKeeps(s, ReadPending, ReadRequest(read), listening);
    case CallSubscribe(subscribe, listening) => OpenKeeps(s, SubscribePending, SubscribeRequest(subscribe), listening);
    case AbortCall(id, reason) =>
      if IsUnary(s, id) {
        UnaryNotHello(s, id);
        CancelKeeps(s, id, reason);
      }
    case AbortOfStream(id, reason) => if id in s.streams { EndStreamKeeps(s, id, Some(reason)); }
    case CloseOfStream(id) => if id in s.streams { EndStreamKeeps(s, id, None); }
    case NextOfStream(id) =>
      if id in s.streams {
        if AnswersOk(s.streams) {
          AtInOrder(s, id);
          StreamInOrder(s.streams[id], CaughtUpItem(0), WriteException, 0);
        }
        SetKeeps(s, s, id, s.streams[id].Next());
      }
  }

  lemma OwnKeeps(s: State, ev: Event)
    requires Core(s) && !Opens(ev) && !Touches(ev) && !ev.Data?
    ensures Keeps(s, Step(s, ev))
  {
    hide Core, ResumePermit, ResumeSlot, ResumeWriter, FailConnection, PermitReady, SlotReady, AnswersOk;
    match ev
    case PermitResumes(id) => if PermitReady(s, id) { ResumePermitKeeps(s, id); }
    case SlotResumes(id) => if SlotReady(s, id) { ResumeSlotKeeps(s, id); }
    case WriterResumes(result) => WriterKeeps(s, result);
    case Drained =>
    case SocketError => FailConnectionKeeps(s, ConnError(SocketFailed));
    case SocketClosed => FailConnectionKeeps(s, ConnError(Closed));
    case CloseConnection => FailConnectionKeeps(s, ConnError(Closed));
  }

  lemma StepHistory(s: State, ev: Event)
    requires Core(s) && History(s)
    ensures History(Step(s, ev))
  {
    hide Core, Step, History, Keeps, Later;
    if ev.Data? {
      StepData(s, ev.chunk);
      OnDataHistory(s, ev.chunk);
    } else {
      if Opens(ev) || Touches(ev) {
        UserKeeps(s, ev);
      } else {
        OwnKeeps(s, ev);
      }
      StepLater(s, ev);
      HistoryKept(s, Step(s, ev));
    }
  }

  lemma ConnectedHistory(cfg: Config, token: Option<bytes>)
    ensures History(Connected(cfg, token))
  {
  }

  lemma {:induction false} RunHistory(start: State, events: seq<Event>)
    requires Core(start) && History(start)
    ensures History(Run(start, events))
  {
    hide Core, Step, History;
    if events != [] {
      RunCore(start, events[..|events| - 1]);
      RunHistory(start, events[..|events| - 1]);
      StepHistory(Run(start, events[..|events| - 1]), events[|events| - 1]);
    }
  }
}
