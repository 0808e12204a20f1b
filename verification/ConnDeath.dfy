/** Death is total: the turn that kills the connection tells every request still in the table, at once. */
module ConnDeath {
  import opened Base
  import opened Messages
  import opened Framing
  import opened Streams
  import opened Errors
  import opened ConnState
  import opened ConnInv
  import opened ConnOrder
  import opened ConnDemux
  import opened ConnInbound
  import opened ConnProgress

  /** A request no response has ended: a call that heard none, a stream whose last one lets it go on. */
  predicate NotEnded(request: RequestKind, ks: seq<ResponseKind>) {
    ks == [] || (IsStreamRequest(request) && Continues(request, ks[|ks| - 1]))
  }

  /** A request is told that the connection died of `e`. */
  ghost predicate HearsDeath(s: State, t: State, id: nat, e: Error)
    requires id in s.pending
  {
    if IsCall(s.pending[id].kind) then Promise(t, id) == [Rejected(e)]
    else StreamAt(t, id).sink.done && StreamAt(t, id).sink.Terminal() == Failed(e)
  }

  /**
   * From `s` to `t` the connection died: the table is empty, and every entry of `s` that no response
   * ended was told the cause of death.
   */
  ghost predicate Told(s: State, t: State) {
    && t.dead && t.cause.Some? && t.pending == map[]
    && forall id :: id in s.pending && id in s.issued && NotEnded(s.issued[id], Live(t.routed, id)) ==>
         HearsDeath(s, t, id, t.cause.value)
  }

  ghost predicate TablesOk(s: State) {
    && IdsOk(s.pending, s.deferreds, s.streams, s.issued, s.idCounter)
    && SettledOk(s.pending, s.deferreds) && StreamsOk(s.pending, s.streams)
  }

  lemma EntryFails(s: State, e: Error, id: nat)
    requires TablesOk(s) && !s.dead && id in s.pending
    ensures HearsDeath(s, FailConnection(s, e), id, e)
  {
    hide PermitIds, Signal, SinkState.Accepted;
    EntryKnown(s, id);
  }

  lemma FailTold(s: State, e: Error)
    requires TablesOk(s) && !s.dead
    ensures Told(s, FailConnection(s, e)) && FailConnection(s, e).cause == Some(e)
    ensures forall id :: id in s.pending ==> HearsDeath(s, FailConnection(s, e), id, e)
  {
    hide PermitIds, Signal, FailedDeferreds, FailedStreams, HearsDeath, TablesOk, Live, NotEnded;
    forall id | id in s.pending
      ensures HearsDeath(s, FailConnection(s, e), id, e)
    {
      EntryFails(s, e, id);
    }
  }

  lemma {:induction false} LiveLater(a: seq<Routed>, b: seq<Routed>, id: nat)
    requires a <= b
    ensures Live(a, id) <= Live(b, id)
  {
    if |a| < |b| {
      LiveLater(a, b[..|b| - 1], id);
    } else {
      assert a == b;
    }
  }

  /** Once a response has ended a request it hears no other. */
  lemma EndedStaysEnded(s: State, before: seq<Routed>, id: nat)
    requires Heard(s, {}) && TablesOk(s) && before <= s.routed && id in s.issued
    requires NotEnded(s.issued[id], Live(s.routed, id))
    ensures NotEnded(s.issued[id], Live(before, id))
  {
    hide Live, Continues, Violates, EndedBy, SinkState.Accepted, ItemsOf, WatermarkIn, Reaction, SettledOk, StreamsOk;
    LiveLater(before, s.routed, id);
    var a, b := Live(before, id), Live(s.routed, id);
    HeardHere(s, id);
    if a != [] {
      assert a[|a| - 1] == b[|a| - 1];
    }
  }

  /** What a settled promise and an ended stream were told, they were told for good. */
  lemma HearsForGood(s: State, t: State, u: State, id: nat, e: Error)
    requires id in s.pending && HearsDeath(s, t, id, e) && id !in t.pending
    requires Later(t, u) && TablesOk(u) && id !in u.pending
    requires if IsCall(s.pending[id].kind) then id in t.deferreds else id in t.streams
    ensures HearsDeath(s, u, id, e)
  {
    hide SinkState.Accepted, IdsOk;
  }

  lemma StaysEmpty(t: State, u: State)
    requires Later(t, u) && Still(t, u) && t.pending == map[]
    requires IdsOk(u.pending, u.deferreds, u.streams, u.issued, u.idCounter)
    ensures u.pending == map[]
  {
    hide StreamLater;
    forall id
      ensures id !in u.pending
    {
      assert id in u.pending ==> id in t.issued;
    }
  }

  lemma ToldLater(s: State, t: State, u: State)
    requires TablesOk(s) && Told(s, t) && Later(s, t) && Later(t, u) && TablesOk(u) && Still(t, u) && Heard(u, {})
    ensures Told(s, u)
  {
    hide SinkState.Accepted, StreamLater, HearsDeath, SettledOk, StreamsOk, Live, NotEnded, Heard, IdsOk;
    StaysEmpty(t, u);
    forall id | id in s.pending && id in s.issued && NotEnded(s.issued[id], Live(u.routed, id))
      ensures HearsDeath(s, u, id, u.cause.value)
    {
      EndedStaysEnded(u, t.routed, id);
      EntryKnown(s, id);
      HearsForGood(s, t, u, id, t.cause.value);
    }
  }

  /** A response that ends an entry's stay in the table ends the request. */
  lemma RouteEnds(s: State, r: WireResponse, id: nat)
    requires Core(s) && Heard(s, {}) && id in s.pending && !Route(s, r).state.dead
    ensures var t := Route(s, r).state;
            id in t.pending || (r.requestId == id && !NotEnded(s.issued[id], Live(t.routed, id)))
  {
    hide Core, Heard, Live, Dispatch, FailConnection;
    EntryIssued(s, id);
    Unattributable(s, r);
    RouteRecords(s, r);
    if r.requestId == id {
      LiveSnoc(s.routed, Routed(r, true), id);
      DispatchEnds(Record(s, r), id, r.kind);
    } else {
      RouteIsLocal(s, r, id);
    }
  }

  lemma DispatchEnds(s: State, id: nat, k: ResponseKind)
    requires id in s.pending && id in s.issued && KindMatches(s.pending[id].kind, s.issued[id])
    ensures id in Dispatch(s, id, k).state.pending || IsCallRequest(s.issued[id]) || !Continues(s.issued[id], k)
  {
    hide Finalize, AbortStream, DeliverAll, Mapped, HelloSettlement, UnarySettlement;
    hide StreamState.FailWith, StreamState.EndWith, StreamState.Deliver;
  }

  /** If a first, living part of a turn answers some entries, and the rest are then told, all is told. */
  lemma AnsweredThenTold(s: State, r: WireResponse, u: State)
    requires Core(s) && Heard(s, {}) && Told(Route(s, r).state, u) && TablesOk(u) && Heard(u, {})
    requires Later(Route(s, r).state, u) && !Route(s, r).state.dead
    ensures Told(s, u)
  {
    hide Core, Heard, Route, HearsDeath, Live, NotEnded, Later, TablesOk;
    var t := Route(s, r).state;
    RouteLater(s, r);
    RoutedLater(t, u);
    forall id | id in s.pending && id in s.issued && NotEnded(s.issued[id], Live(u.routed, id))
      ensures HearsDeath(s, u, id, u.cause.value)
    {
      SameIssue(s, t, u, id);
      EndedStaysEnded(u, t.routed, id);
      RouteEnds(s, r, id);
      HearsSame(s, t, u, id, u.cause.value);
    }
  }

  lemma SameIssue(s: State, t: State, u: State, id: nat)
    requires Later(s, t) && Later(t, u) && id in s.issued
    ensures id in t.issued && id in u.issued && t.issued[id] == s.issued[id] && u.issued[id] == s.issued[id]
    ensures id in t.pending ==> id in s.pending && t.pending[id].kind == s.pending[id].kind
  {
    hide StreamLater;
  }

  lemma RoutedLater(t: State, u: State)
    requires Later(t, u)
    ensures t.routed <= u.routed
  {
  }

  /** A living connection has not just routed an unattributed error. */
  lemma Unattributable(s: State, r: WireResponse)
    requires !Route(s, r).state.dead
    ensures !(r.requestId == 0 && r.kind.ErrorResponse?)
  {
    if r.requestId == 0 && r.kind.ErrorResponse? {
      FailConnectionDies(Record(s, r), ConnError(Unattributed(ServerError(r.kind.error))));
    }
  }

  lemma HearsSame(s: State, t: State, u: State, id: nat, e: Error)
    requires id in s.pending && (id in t.pending ==> t.pending[id].kind == s.pending[id].kind)
    ensures id in t.pending && HearsDeath(t, u, id, e) ==> HearsDeath(s, u, id, e)
  {
  }

  lemma CoreTablesOk(s: State)
    requires Core(s)
    ensures TablesOk(s)
  {
  }

  lemma {:induction false} RouteAllTold(s: State, bodies: seq<bytes>)
    requires Core(s) && Heard(s, {}) && !s.dead && RouteAll(s, bodies).dead
    ensures Told(s, RouteAll(s, bodies))
    decreases |bodies|
  {
    hide Core, Heard, Route, FailConnection, DecodedResponse, Told, TablesOk, Later;
    if bodies != [] {
      CoreTablesOk(s);
      match DecodedResponse(bodies[0])
      case Err(e) => FailTold(s, ConnError(ProtocolFailed(BodyError(e))));
      case Ok(r) =>
        var t, u := Route(s, r), RouteAll(s, bodies);
        RouteCore(s, r);
        RouteHeard(s, r);
        RouteHeardOrDead(s, r);
        CoreTablesOk(t.state);
        RouteAllCore(s, bodies);
        RouteAllHeard(s, bodies);
        CoreTablesOk(u);
        if t.error.Some? {
          FailTold(t.state, ConnError(ProtocolFailed(t.error.value)));
          FailConnectionLaterCore(t.state, ConnError(ProtocolFailed(t.error.value)));
          AnsweredThenTold(s, r, u);
        } else if !t.state.dead {
          RouteAllTold(t.state, bodies[1..]);
          RouteAllLater(t.state, bodies[1..]);
          AnsweredThenTold(s, r, u);
        } else {
          RouteLater(s, r);
          RouteAllLater(t.state, bodies[1..]);
          RouteAllDecodes(t.state, bodies[1..]);
          ToldLater(s, t.state, u);
        }
    }
  }

  /** Routing one response kills the connection only if the server could not attribute an error. */
  lemma RouteHeardOrDead(s: State, r: WireResponse)
    requires Core(s) && !s.dead
    ensures Route(s, r).error.Some? ==> !Route(s, r).state.dead
    ensures Route(s, r).state.dead ==> Told(s, Route(s, r).state)
  {
    hide Core, Dispatch, FailConnection, Told, Finalize;
    var s1 := Record(s, r);
    if r.requestId == 0 && r.kind.ErrorResponse? {
      RecordCore(s, r);
      CoreTablesOk(s1);
      FailTold(s1, ConnError(Unattributed(ServerError(r.kind.error))));
      ToldSame(s, s1, FailConnection(s1, ConnError(Unattributed(ServerError(r.kind.error)))));
    } else if r.requestId in s.pending {
      DispatchLives(s1, r.requestId, r.kind);
    }
  }

  lemma RouteStreamLives(s: State, id: nat, k: ResponseKind)
    ensures RouteRead(s, id, k).state.dead == s.dead && RouteSubscribe(s, id, k).state.dead == s.dead
  {
    hide Finalize, Mapped, DeliverAll, CancelStream, StreamState.FailWith, StreamState.EndWith, StreamState.Deliver;
    hide StreamAt;
    FinalizeDeaf(s, id);
    CancelDeaf(s, id, WriteException);
  }

  lemma DispatchLives(s: State, id: nat, k: ResponseKind)
    requires id in s.pending
    ensures Dispatch(s, id, k).state.dead == s.dead
  {
    hide Finalize, RouteRead, RouteSubscribe, HelloSettlement, UnarySettlement;
    FinalizeDeaf(s, id);
    RouteStreamLives(s, id, k);
  }

  lemma OnDataTold(s: State, chunk: bytes)
    requires Core(s) && Heard(s, {}) && !s.dead && OnData(s, chunk).dead
    ensures Told(s, OnData(s, chunk))
  {
    hide IdsOk, WireOk, DeadOk, SettledOk, StreamsOk, FramesOk, OriginOk, SendersOk, PermitsOk, SlotsOk, WriterOk;
    hide RouteAll, FailConnection, PushResult, Told, Heard;
    var push := PushResult(s.cfg.maxFrameLen, s.buffer, chunk);
    var s1 := s.(buffer := push.1, received := s.received + chunk);
    HeardSame(s, s1);
    match push.0 {
      case Err(e) => FailTold(s1, ConnError(FramingFailed(FrameError(e))));
      case Ok(bodies) => RouteAllTold(s1, bodies);
    }
    ToldSame(s, s1, OnData(s, chunk));
  }

  lemma ToldSame(s: State, s1: State, t: State)
    requires Told(s1, t) && s1.pending == s.pending && s1.issued == s.issued
    ensures Told(s, t)
  {
    hide Live, NotEnded;
  }

  /** The end of the writer changes nothing that was told. */
  lemma ToldWriter(s: State, t: State, w: WriterPc)
    requires Told(s, t)
    ensures Told(s, t.(writer := w))
  {
    hide Live, NotEnded;
  }

  lemma WriterTold(s: State, result: WriteResult)
    requires Core(s) && !s.dead && ResumeWriter(s, result).dead
    ensures Told(s, ResumeWriter(s, result))
  {
    hide IdsOk, WireOk, DeadOk, SettledOk, StreamsOk, FramesOk, OriginOk, SendersOk, PermitsOk, SlotsOk;
    hide FailConnection, Flatten, LastN, ReleaseTimes, AwaitGate, Told, TablesOk;
    AwaitGateDeaf(s);
    AwaitGateDeaf(Written(s));
    CoreTablesOk(s);
    var taken := s.(wire := s.wire.(priority := [], outbound := []), writer := Over);
    var e := ConnError(WriteFailed(WriteException));
    TakenTables(s, taken);
    FailTold(taken, e);
    ToldSame(s, taken, FailConnection(taken, e));
    ToldWriter(s, FailConnection(taken, e), Over);
  }

  lemma TakenTables(s: State, t: State)
    requires TablesOk(s) && t == s.(wire := t.wire, writer := t.writer)
    ensures TablesOk(t)
  {
  }

  lemma SocketTold(s: State, reason: ConnReason)
    requires Core(s) && !s.dead
    ensures Told(s, SocketGone(s, reason)) && Told(s, FailConnection(s, ConnError(reason)))
  {
    hide Core, FailConnection, Told;
    CoreTablesOk(s);
    FailTold(s, ConnError(reason));
    ToldWriter(s, FailConnection(s, ConnError(reason)), DrainFailed);
  }

  /**
   * Whatever turn kills the connection, when it is over the table is empty and every request that was
   * in it and that no response ended has been told the cause of death.
   */
  lemma DeathIsTotal(s: State, ev: Event)
    requires Core(s) && Heard(s, {}) && !s.dead && Step(s, ev).dead
    ensures Told(s, Step(s, ev))
  {
    hide Core, OpenUnary, OpenOther, CancelUnary, EndStream, ResumePermit, ResumeSlot, ResumeWriter, SocketGone;
    hide FailConnection, OnData, PermitReady, SlotReady, IsUnary, Told, Heard;
    match ev
    case CallAppend(append, aborted) => OpenDeaf(s, AppendRequest(append), WantsAppend, HelloPending, false, aborted);
    case CallStats(aborted) => OpenDeaf(s, StatsRequest, WantsStats, HelloPending, false, aborted);
    case CallRead(read, listening) => OpenDeaf(s, ReadRequest(read), WantsStats, ReadPending, listening, None);
    case CallSubscribe(subscribe, listening) =>
      OpenDeaf(s, SubscribeRequest(subscribe), WantsStats, SubscribePending, listening, None);
    case AbortCall(id, reason) => CancelDeaf(s, id, reason);
    case AbortOfStream(id, reason) => EndStreamDeaf(s, id, Some(reason));
    case CloseOfStream(id) => EndStreamDeaf(s, id, None);
    case PermitResumes(id) => if PermitReady(s, id) { ResumePermitDeaf(s, id); }
    case SlotResumes(id) => if SlotReady(s, id) { ResumeSlotDeaf(s, id); }
    case WriterResumes(result) => WriterTold(s, result);
    case SocketError => SocketTold(s, SocketFailed);
    case SocketClosed => SocketTold(s, Closed);
    case CloseConnection => SocketTold(s, Closed);
    case Data(chunk) => OnDataTold(s, chunk);
    case _ =>
  }

  /**
   * A response that violates the protocol, when it is routed. If the cancel it calls for fits a frame,
   * the stream is failed with the violation and its entry goes. If not, the connection dies of that
   * cancel's frame error, and the stream is told so.
   */
  lemma ViolationExactly(s: State, bodies: seq<bytes>, id: nat, k: ResponseKind)
    requires Core(s) && !s.dead && id in s.pending && !IsCall(s.pending[id].kind) && Violates(s.issued[id], k)
    requires bodies != [] && DecodedResponse(bodies[0]) == Ok(WireResponse(id, k))
    ensures if CanCancel(s, id)
            then
              var t := Route(s, WireResponse(id, k));
              && t.error.None? && id !in t.state.pending && id in t.state.streams
              && t.state.streams[id].sink.done && t.state.streams[id].sink.Terminal() == Verdict(s.issued[id], k)
            else
              var u := RouteAll(s, bodies);
              && u.dead && CancelThrew(u.cause) && id in u.streams
              && u.streams[id].sink.done && u.streams[id].sink.Terminal() == Failed(u.cause.value)
  {
    hide Core, AbortStream, DeliverAll, Mapped, FailConnection, EncodedRequest, DecodedResponse, TablesOk;
    EntryIssued(s, id);
    KnownStream(s, id);
    StreamKinds(s, id);
    var s1, e := Record(s, WireResponse(id, k)), ProtocolError(if k.ReadEvents? then MissingEvent else UnexpectedKind);
    RecordCore(s, WireResponse(id, k));
    AbortStreamExactly(s1, id, e);
    ViolationRoutes(s, id, k);
    if !CanCancel(s, id) {
      var t := AbortStream(s1, id, e);
      AbortStreamCore(s1, id, e);
      CoreTablesOk(t.state);
      AbortStreamLives(s1, id, e);
      FailTold(t.state, ConnError(ProtocolFailed(t.error.value)));
      DiedStreams(t.state, ConnError(ProtocolFailed(t.error.value)), id);
    }
  }

  lemma ViolationRoutes(s: State, id: nat, k: ResponseKind)
    requires Core(s) && id in s.pending && !IsCall(s.pending[id].kind) && id in s.issued && Violates(s.issued[id], k)
    ensures Route(s, WireResponse(id, k))
            == AbortStream(Record(s, WireResponse(id, k)), id,
                           ProtocolError(if k.ReadEvents? then MissingEvent else UnexpectedKind))
  {
    hide AbortStream, DeliverAll, Mapped, Finalize;
    hide PermitsOk, SendersOk, WireOk, OriginOk, FramesOk, SlotsOk, WriterOk, DeadOk, SettledOk, StreamsOk;
  }

  lemma AbortStreamLives(s: State, id: nat, e: Error)
    ensures AbortStream(s, id, e).state.dead == s.dead
  {
    hide CancelStream, StreamState.FailWith;
    CancelDeaf(s, id, e);
  }

  lemma DiedStreams(s: State, e: Error, id: nat)
    requires id in s.streams && !s.dead
    ensures id in FailConnection(s, e).streams
  {
    hide PermitIds, Signal, FailedDeferreds;
  }
}
