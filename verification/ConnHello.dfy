/**
 * The opening hello. Until the connection is handed to its user nothing else is asked of it, so the
 * hello is the first frame on the wire.
 */
module ConnHello {
  import opened Base
  import opened Messages
  import opened Framing
  import opened Sync
  import opened Errors
  import opened ConnState
  import opened ConnInv
  import opened ConnOrder
  import opened ConnDemux
  import opened ConnInbound
  import opened ConnProgress
  import opened ConnDeath
  import opened ConnIdle
  import WireFormat
  import opened ConnTheorems

  function Hello(token: Option<bytes>): WireRequest {
    WireRequest(1, HelloRequest(WireHello(PROTOCOL_VERSION, token)))
  }

  /** The hello is all that was asked, and nothing was cancelled. */
  ghost predicate OnlyHello(s: State, token: Option<bytes>) {
    s.issued == map[1 := Hello(token).kind] && s.streams == map[] && s.wire.cancels == []
  }

  /** A turn that opens nothing, cancels nothing and touches no stream. */
  predicate Silent(s: State, t: State) {
    t.issued == s.issued && t.streams == s.streams && t.wire.cancels == s.wire.cancels
  }

  lemma OnlyCalls(s: State, id: nat)
    requires Core(s) && s.streams == map[] && id in s.pending
    ensures IsCall(s.pending[id].kind)
  {
    EntryKnown(s, id);
  }

  lemma FinalizeSilent(s: State, id: nat, o: Settlement)
    ensures Silent(s, Finalize(s, id)) && Silent(s, Settle(Finalize(s, id), id, o))
  {
  }

  lemma FailEntrySilent(s: State, id: nat, e: Error)
    requires Core(s) && s.streams == map[]
    ensures Silent(s, FailEntry(s, id, e))
  {
    hide Core, Finalize, Settle;
    FinalizeSilent(s, id, Rejected(e));
    if id in s.pending {
      OnlyCalls(s, id);
    }
  }

  lemma FailConnectionSilent(s: State, e: Error)
    requires s.streams == map[]
    ensures Silent(s, FailConnection(s, e))
  {
    hide Signal, PermitIds, FailedDeferreds;
    assert FailedStreams(s, e) == map[];
  }

  lemma ResumePermitSilent(s: State, id: nat)
    requires Core(s) && s.streams == map[] && PermitReady(s, id)
    ensures Silent(s, ResumePermit(s, id))
  {
    hide Core, EncodedRequest, Frame, FailEntry;
    if id !in s.pending || s.dead {
      AbandonCore(s, id);
      FailEntrySilent(Abandon(s, id), id, DeadError(s));
    } else {
      TakePermitCore(s, id);
      var body := EncodedRequest(WireRequest(id, s.senders[id].kind));
      FailEntrySilent(TakePermit(s, id), id, FrameError(FrameTooLarge(|body|, s.cfg.maxFrameLen)));
    }
  }

  lemma ResumeSlotSilent(s: State, id: nat)
    requires Core(s) && s.streams == map[] && SlotReady(s, id)
    ensures Silent(s, ResumeSlot(s, id))
  {
    hide IdsOk, WireOk, WriterOk, DeadOk, SettledOk, StreamsOk, FramesOk, OriginOk, SendersOk, PermitsOk, FailEntry;
    if s.dead {
      SenderWakes(s.senders, s.inflight, s.slots, s.pending, id);
      SenderGone(s.senders, s.wire.ordinary, s.wire.cancels, s.issued, s.cfg.maxFrameLen, s.idCounter, id);
      FailEntrySilent(s.(slots := s.slots.Resume(id).Release(), senders := s.senders - {id}), id, DeadError(s));
    }
  }

  lemma ResumeWriterSilent(s: State, result: WriteResult)
    requires s.streams == map[]
    ensures Silent(s, ResumeWriter(s, result))
  {
    hide FailConnection, Flatten, Batch, ReleaseTimes;
    FailConnectionSilent(Emptied(s).(writer := Over), ConnError(WriteFailed(WriteException)));
    FailConnectionSilent(s.(writer := Over), ConnError(WriteFailed(DeadError(s))));
  }

  lemma RouteSilent(s: State, r: WireResponse)
    requires Core(s) && s.streams == map[]
    ensures Silent(s, Route(s, r).state) && Route(s, r).error.None?
  {
    hide Core, FailConnection, Finalize, Settle, HelloSettlement, UnarySettlement, RouteRead, RouteSubscribe;
    var s1, id := Record(s, r), r.requestId;
    if id in s.pending {
      OnlyCalls(s, id);
      EntryIssued(s, id);
      match s.pending[id].kind
      case HelloPending => FinalizeSilent(s1, id, HelloSettlement(r.kind));
      case UnaryPending(wants) => FinalizeSilent(s1, id, UnarySettlement(wants, r.kind));
    } else if r.kind.ErrorResponse? {
      FailConnectionSilent(s1, ConnError(Unattributed(ServerError(r.kind.error))));
    }
  }

  lemma {:induction false} RouteAllSilent(s: State, bodies: seq<bytes>)
    requires Core(s) && s.streams == map[]
    ensures Silent(s, RouteAll(s, bodies))
    decreases |bodies|
  {
    hide Core, Route, FailConnection, DecodedResponse;
    if bodies != [] {
      match DecodedResponse(bodies[0])
      case Err(e) => FailConnectionSilent(s, ConnError(ProtocolFailed(BodyError(e))));
      case Ok(r) =>
        RouteCore(s, r);
        RouteSilent(s, r);
        RouteAllSilent(Route(s, r).state, bodies[1..]);
    }
  }

  lemma OnDataSilent(s: State, chunk: bytes)
    requires Core(s) && s.streams == map[]
    ensures Silent(s, OnData(s, chunk))
  {
    hide IdsOk, WireOk, DeadOk, SettledOk, StreamsOk, FramesOk, OriginOk, SendersOk, PermitsOk, SlotsOk, WriterOk;
    hide RouteAll, FailConnection, PushResult;
    var push := PushResult(s.cfg.maxFrameLen, s.buffer, chunk);
    var s1 := s.(buffer := push.1, received := s.received + chunk);
    match push.0
    case Err(e) => FailConnectionSilent(s1, ConnError(FramingFailed(FrameError(e))));
    case Ok(bodies) => RouteAllSilent(s1, bodies);
  }

  lemma StepSilent(s: State, token: Option<bytes>, ev: Event)
    requires Core(s) && OnlyHello(s, token) && !Opens(ev)
    ensures Silent(s, Step(s, ev))
  {
    hide Core, OpenUnary, OpenOther, CancelUnary, EndStream, ResumePermit, ResumeSlot, ResumeWriter;
    hide FailConnection, OnData, SetStream, PermitReady, SlotReady;
    match ev
    case PermitResumes(id) => if PermitReady(s, id) { ResumePermitSilent(s, id); }
    case SlotResumes(id) => if SlotReady(s, id) { ResumeSlotSilent(s, id); }
    case WriterResumes(result) => ResumeWriterSilent(s, result);
    case SocketError => FailConnectionSilent(s, ConnError(SocketFailed));
    case SocketClosed => FailConnectionSilent(s, ConnError(Closed));
    case CloseConnection => FailConnectionSilent(s, ConnError(Closed));
    case Data(chunk) => OnDataSilent(s, chunk);
    case _ =>
  }

  lemma ConnectedOnlyHello(cfg: Config, token: Option<bytes>)
    ensures OnlyHello(Connected(cfg, token), token)
  {
  }

  lemma {:induction false} RunOnlyHello(cfg: Config, token: Option<bytes>, events: seq<Event>)
    requires forall ev <- events :: !Opens(ev)
    ensures OnlyHello(After(cfg, token, events), token)
  {
    hide Step, Core, Connected, Opens;
    if events == [] {
      ConnectedOnlyHello(cfg, token);
    } else {
      var init, last := events[..|events| - 1], events[|events| - 1];
      RunOnlyHello(cfg, token, init);
      AfterKeeps(cfg, token, init);
      assert last in events;
      StepSilent(After(cfg, token, init), token, last);
    }
  }

  lemma {:induction false} SelectCounts(requests: seq<WireRequest>)
    ensures |Select(requests, false)| + |Select(requests, true)| == |requests|
  {
    if requests != [] {
      SelectCounts(requests[..|requests| - 1]);
    }
  }

  lemma TwoAlike(requests: seq<WireRequest>, r: WireRequest)
    requires |requests| > 1 && forall i :: 0 <= i < |requests| ==> requests[i] == r
    ensures exists i, j :: 0 <= i < j < |requests| && requests[i].requestId == requests[j].requestId
  {
    assert requests[0].requestId == requests[1].requestId;
  }

  /** Only what was asked is queued, and once. */
  lemma OnlyHelloQueued(s: State, token: Option<bytes>)
    requires Core(s) && OnlyHello(s, token)
    ensures s.wire.ordinary == [] || s.wire.ordinary == [Hello(token)]
  {
    hide IdsOk, DeadOk, SettledOk, StreamsOk, FramesOk, SendersOk, PermitsOk, SlotsOk, WriterOk, WireOk;
    var ordinary := s.wire.ordinary;
    assert forall i :: 0 <= i < |ordinary| ==> ordinary[i] == Hello(token);
    if |ordinary| > 1 {
      TwoAlike(ordinary, Hello(token));
      assert false;
    }
  }

  lemma SentSplits(s: State)
    requires Core(s)
    ensures Select(s.wire.sent, false) <= s.wire.ordinary && |Select(s.wire.sent, true)| <= |s.wire.cancels|
  {
    hide IdsOk, DeadOk, SettledOk, StreamsOk, FramesOk, SendersOk, PermitsOk, SlotsOk, WriterOk, OriginOk;
    hide Select, FramesOf, BodiesOf, Framed, LastN, ConnInv.Fits;
  }

  lemma OnlyHelloSent(s: State, token: Option<bytes>)
    requires Core(s) && OnlyHello(s, token)
    ensures s.wire.sent == [] || s.wire.sent == [Hello(token)]
  {
    hide Core;
    OnlyHelloQueued(s, token);
    SentSplits(s);
    SelectCounts(s.wire.sent);
    var sent := s.wire.sent;
    if |sent| == 1 {
      assert sent[..0] == [];
      assert Select(sent, false) == [sent[0]];
      assert sent[0] == s.wire.ordinary[0];
    }
  }

  /**
   * The hello goes first: if nothing was asked of the connection before a frame was written, then on
   * every continuation, whatever is asked then, the first request on the wire is the hello.
   */
  lemma HelloGoesFirst(cfg: Config, token: Option<bytes>, before: seq<Event>, after: seq<Event>)
    requires forall ev <- before :: !Opens(ev)
    requires After(cfg, token, before).wire.sent != []
    ensures var sent := After(cfg, token, before + after).wire.sent; sent != [] && sent[0] == Hello(token)
  {
    hide Core, Run, Heard, InboundOk, Tracked, TablesLater, DeathLater, InputLater, OnlyHello;
    var s := After(cfg, token, before);
    AfterKeeps(cfg, token, before);
    RunOnlyHello(cfg, token, before);
    OnlyHelloSent(s, token);
    RunConcat(Connected(cfg, token), before, after);
    RunLater(s, after);
  }

  // ---------------------------------------------------------------------------
  // A connection that is left alone
  // ---------------------------------------------------------------------------

  /** A configuration with room for one request: a permit, a slot, and a frame that holds the hello. */
  predicate RoomForHello(cfg: Config, token: Option<bytes>) {
    cfg.maxInflight >= 1 && cfg.queueDepth >= 1 && |EncodedRequest(Hello(token))| <= cfg.maxFrameLen
  }

  lemma HelloOpened(cfg: Config, token: Option<bytes>)
    requires cfg.maxInflight >= 1
    ensures Connected(cfg, token) == Init(cfg).(
              pending := map[1 := Pending(HelloPending, false)], deferreds := map[1 := []],
              senders := map[1 := AwaitPermit(Hello(token).kind)], inflight := Sem(cfg.maxInflight - 1, [], {1}),
              idCounter := 1, issued := map[1 := Hello(token).kind])
  {
  }

  lemma HelloPermitted(s: State, token: Option<bytes>)
    requires s.senders == map[1 := AwaitPermit(Hello(token).kind)] && s.inflight == Sem(s.inflight.permits, [], {1})
    requires s.pending == map[1 := Pending(HelloPending, false)] && !s.dead
    requires s.slots.permits >= 1 && s.slots == Sem(s.slots.permits, [], {})
    requires |EncodedRequest(Hello(token))| <= s.cfg.maxFrameLen
    ensures Step(s, PermitResumes(1)) == s.(
              pending := map[1 := Pending(HelloPending, true)], inflight := Sem(s.inflight.permits, [], {}),
              senders := map[1 := AwaitSlot(Frame(EncodedRequest(Hello(token))), Hello(token))],
              slots := Sem(s.slots.permits - 1, [], {1}))
  {
    hide EncodedRequest, Frame, FailEntry;
    assert map[1 := Pending(HelloPending, false)][1 := Pending(HelloPending, true)]
        == map[1 := Pending(HelloPending, true)];
  }

  lemma HelloQueued(s: State, token: Option<bytes>)
    requires s.senders == map[1 := AwaitSlot(Frame(EncodedRequest(Hello(token))), Hello(token))] && !s.dead
    requires s.slots == Sem(s.slots.permits, [], {1}) && s.gate == GateState(true, false)
    requires s.wire == Wire([], [], [], [], [], [])
    ensures Step(s, SlotResumes(1)) == s.(
              senders := map[], slots := Sem(s.slots.permits, [], {}), gate := GateState(false, false), writer := Ready,
              wire := Wire([Frame(EncodedRequest(Hello(token)))], [], [], [Hello(token)], [], []))
  {
    hide EncodedRequest, Frame, FailEntry;
    assert s.senders - {1} == map[];
  }

  lemma HelloWritten(s: State, token: Option<bytes>)
    requires s.writer == Ready && !s.dead && s.gate == GateState(false, false)
        && s.slots == Sem(s.slots.permits, [], {})
    requires s.wire == Wire([Frame(EncodedRequest(Hello(token)))], [], [], [Hello(token)], [], [])
    ensures Step(s, WriterResumes(Flushed)) == s.(
              slots := Sem(s.slots.permits + 1, [], {}), gate := GateState(true, false), writer := Parked,
              wire := Wire([], [], Frame(EncodedRequest(Hello(token))), [Hello(token)], [], [Hello(token)]))
  {
    hide EncodedRequest, Frame;
    var frame := Frame(EncodedRequest(Hello(token)));
    assert [] + [frame] == [frame] && Flatten([frame]) == frame + Flatten<byte>([]) == frame;
    assert Batch(s.wire) == [] + [Hello(token)] == [Hello(token)];
    assert ReleaseTimes(s.slots, 1) == ReleaseTimes(s.slots.Release(), 0) == s.slots.Release();
  }

  /** Left alone, a new connection takes three turns of its own, writes its hello, and falls quiet. */
  lemma LeftAloneItSaysHello(cfg: Config, token: Option<bytes>)
    requires RoomForHello(cfg, token)
    ensures var s := After(cfg, token, [PermitResumes(1), SlotResumes(1), WriterResumes(Flushed)]);
            && Quiet(s) && s.wire.sent == [Hello(token)] && s.wire.written == Frame(EncodedRequest(Hello(token)))
            && 1 in s.pending && s.pending[1].permit
  {
    hide Step, Connected, EncodedRequest, Frame;
    var e1, e2, e3 := PermitResumes(1), SlotResumes(1), WriterResumes(Flushed);
    HelloOpened(cfg, token);
    assert After(cfg, token, []) == Connected(cfg, token);
    OneMore(cfg, token, [], e1);
    assert [] + [e1] == [e1] && [e1] + [e2] == [e1, e2] && [e1, e2] + [e3] == [e1, e2, e3];
    OneMore(cfg, token, [e1], e2);
    OneMore(cfg, token, [e1, e2], e3);
    HelloPermitted(After(cfg, token, []), token);
    HelloQueued(After(cfg, token, [e1]), token);
    HelloWritten(After(cfg, token, [e1, e2]), token);
    assert After(cfg, token, [e1, e2, e3]).senders == map[];
  }

  lemma HelloPends(cfg: Config, token: Option<bytes>)
    ensures var s := Connected(cfg, token);
            s.pending == map[1 := Pending(HelloPending, false)] && s.streams == map[] && !s.dead && s.cfg == cfg
            && s.idCounter == 1
  {
    hide Sem.Acquire;
  }

  /** Closed before the server answers, it rejects its hello with the close. */
  lemma ClosedItRejectsItsHello(cfg: Config, token: Option<bytes>)
    ensures var s := After(cfg, token, [CloseConnection]);
            s.dead && s.pending == map[] && Promise(s, 1) == [Rejected(ConnError(Closed))]
  {
    hide FailConnection, Connected, Live, Core, Heard, InboundOk, Tracked;
    var s := Connected(cfg, token);
    HelloPends(cfg, token);
    assert After(cfg, token, []) == s;
    OneMore(cfg, token, [], CloseConnection);
    assert [] + [CloseConnection] == [CloseConnection];
    AfterKeeps(cfg, token, []);
    CoreTablesOk(s);
    FailTold(s, ConnError(Closed));
    EntryFails(s, ConnError(Closed), 1);
  }

  // ---------------------------------------------------------------------------
  // A stream that hangs after death
  // ---------------------------------------------------------------------------

  lemma ClosingStrands(s: State)
    requires !s.dead && s.pending == map[1 := Pending(HelloPending, true)] && s.idCounter == 1
    ensures var t := Step(s, CloseConnection);
            t.dead && t.stranded == 1 && t.idCounter == 1 && t.cfg == s.cfg
  {
    hide FailedDeferreds, FailedStreams, Signal;
    assert PermitIds(s.pending) == {1};
  }

  /**
   * With a budget of one permit, a connection that is closed while its hello owns it leaves a read that
   * is opened then in the table, unended, and no turn of the runtime on any continuation ends it.
   */
  lemma AReadHangsAfterDeath(cfg: Config, token: Option<bytes>, after: seq<Event>)
    requires RoomForHello(cfg, token) && cfg.maxInflight == 1
    ensures var s := After(cfg, token, [PermitResumes(1), CloseConnection, ANY_READ]);
            s.dead && 2 in s.pending && 2 in s.streams && !s.streams[2].sink.done
    ensures forall id :: !PermitReady(After(cfg, token, [PermitResumes(1), CloseConnection, ANY_READ] + after), id)
  {
    hide Step, Connected, EncodedRequest, Frame, Core, Heard, InboundOk, Tracked, TablesLater, After, PermitReady;
    var e1, e2, e3 := PermitResumes(1), CloseConnection, ANY_READ;
    HelloOpened(cfg, token);
    AfterNothing(cfg, token);
    OneMore(cfg, token, [], e1);
    assert [] + [e1] == [e1] && [e1] + [e2] == [e1, e2] && [e1, e2] + [e3] == [e1, e2, e3];
    OneMore(cfg, token, [e1], e2);
    OneMore(cfg, token, [e1, e2], e3);
    HelloPermitted(After(cfg, token, []), token);
    ClosingStrands(After(cfg, token, [e1]));
    ReadOpens(After(cfg, token, [e1, e2]));
    AfterKeeps(cfg, token, [e1, e2]);
    StepLater(After(cfg, token, [e1, e2]), e3);
    AfterKeeps(cfg, token, [e1, e2, e3]);
    LateWaits(After(cfg, token, [e1, e2, e3]), 2);
    LateStreamsFailExactly(cfg, token, [e1, e2, e3], after);
  }

  lemma AfterNothing(cfg: Config, token: Option<bytes>)
    ensures After(cfg, token, []) == Connected(cfg, token)
  {
    hide Connected;
  }

  // ---------------------------------------------------------------------------
  // A cancel that goes first
  // ---------------------------------------------------------------------------

  const STATS := WireRequest(2, StatsRequest)
  const CANCEL := WireRequest(3, CancelRequest(2))

  /** What the run below is about: a call for the stats, its sender, and both queues. */
  lemma StatsCalled(s: State)
    requires !s.dead && s.idCounter == 1 && s.inflight == Sem(s.inflight.permits, [], {1}) && s.inflight.permits >= 1
    requires 2 !in s.senders
    ensures var t := Step(s, CallStats(None));
            && !t.dead && PermitReady(t, 2) && t.senders[2].kind == StatsRequest
            && 2 in t.pending && t.pending[2].kind.UnaryPending? && t.idCounter == 2
            && 2 in t.issued && t.issued[2] == StatsRequest
            && t.slots == s.slots && t.wire == s.wire && t.gate == s.gate && t.writer == s.writer && t.cfg == s.cfg
  {
  }

  lemma StatsPermitted(s: State)
    requires !s.dead && PermitReady(s, 2) && s.senders[2].kind == StatsRequest && 2 in s.pending
    requires s.pending[2].kind.UnaryPending? && s.slots == Sem(s.slots.permits, [], {}) && s.slots.permits >= 1
    requires |EncodedRequest(STATS)| <= s.cfg.maxFrameLen
    ensures var t := Step(s, PermitResumes(2));
            && !t.dead && SlotReady(t, 2) && t.senders[2].request == STATS
            && 2 in t.pending && t.pending[2].kind.UnaryPending? && t.idCounter == s.idCounter && t.issued == s.issued
            && t.wire == s.wire && t.gate == s.gate && t.writer == s.writer && t.cfg == s.cfg
  {
    hide EncodedRequest, Frame, FailEntry;
  }

  lemma StatsQueued(s: State)
    requires !s.dead && SlotReady(s, 2) && s.senders[2].request == STATS && s.gate.waiting
    ensures var t := Step(s, SlotResumes(2));
            && !t.dead && t.wire.ordinary == s.wire.ordinary + [STATS] && |t.wire.outbound| == |s.wire.outbound| + 1
            && t.wire.cancels == s.wire.cancels && t.wire.priority == s.wire.priority && t.wire.sent == s.wire.sent
            && t.writer == Ready && !t.gate.waiting
            && t.pending == s.pending && t.idCounter == s.idCounter && t.issued == s.issued && t.cfg == s.cfg
  {
    hide FailEntry;
  }

  lemma StatsCancelled(s: State, e: Error)
    requires !s.dead && 2 in s.pending && s.pending[2].kind.UnaryPending? && s.idCounter == 2 && !s.gate.waiting
    requires 2 in s.issued && s.issued[2] == StatsRequest && s.cfg.maxFrameLen >= CANCEL_LEN && s.writer == Ready
    ensures var t := Step(s, AbortCall(2, e));
            && !t.dead && t.wire.cancels == s.wire.cancels + [CANCEL] && |t.wire.priority| == |s.wire.priority| + 1
            && t.wire.ordinary == s.wire.ordinary && t.wire.outbound == s.wire.outbound && t.wire.sent == s.wire.sent
            && t.writer == Ready
  {
    hide EncodedRequest, Frame, Finalize;
    WireFormat.CancelFits(3, 2);
    FinalizeKeeps(SendCancel(s, 2).state, 2);
  }

  lemma BothWritten(s: State)
    requires !s.dead && s.writer == Ready && s.wire.sent == []
    requires s.wire.cancels == [CANCEL] && |s.wire.priority| == 1 && s.wire.ordinary == [STATS]
        && |s.wire.outbound| == 1
    ensures Step(s, WriterResumes(Flushed)).wire.sent == [CANCEL, STATS]
  {
    hide Flatten, ReleaseTimes, AwaitGate;
    AwaitGateDeaf(Written(s));
    assert Batch(s.wire) == [CANCEL, STATS];
    assert [] + [CANCEL, STATS] == [CANCEL, STATS];
  }

  /** A call that is aborted after it was queued and before it was written: its cancel is written first. */
  lemma ACancelGoesFirst(cfg: Config, token: Option<bytes>, e: Error)
    requires cfg.maxInflight >= 2 && cfg.queueDepth >= 1 && cfg.maxFrameLen >= CANCEL_LEN
    requires |EncodedRequest(STATS)| <= cfg.maxFrameLen
    ensures After(cfg, token, [CallStats(None), PermitResumes(2), SlotResumes(2), AbortCall(2, e),
                               WriterResumes(Flushed)])
              .wire.sent == [CANCEL, STATS]
  {
    hide Step, Connected, EncodedRequest, Frame, After, PermitReady, SlotReady;
    var e1, e2, e3, e4, e5 := CallStats(None), PermitResumes(2), SlotResumes(2), AbortCall(2, e),
        WriterResumes(Flushed);
    HelloOpened(cfg, token);
    AfterNothing(cfg, token);
    assert [] + [e1] == [e1] && [e1] + [e2] == [e1, e2] && [e1, e2] + [e3] == [e1, e2, e3];
    assert [e1, e2, e3] + [e4] == [e1, e2, e3, e4] && [e1, e2, e3, e4] + [e5] == [e1, e2, e3, e4, e5];
    OneMore(cfg, token, [], e1);
    StatsCalled(After(cfg, token, []));
    OneMore(cfg, token, [e1], e2);
    StatsPermitted(After(cfg, token, [e1]));
    OneMore(cfg, token, [e1, e2], e3);
    StatsQueued(After(cfg, token, [e1, e2]));
    OneMore(cfg, token, [e1, e2, e3], e4);
    StatsCancelled(After(cfg, token, [e1, e2, e3]), e);
    OneMore(cfg, token, [e1, e2, e3, e4], e5);
    BothWritten(After(cfg, token, [e1, e2, e3, e4]));
  }
}
