/**
 * Demultiplexing is projection. What a request's promise or stream got is a function of the responses
 * that carried its id while it was in the table, in the order they were routed, and of nothing else.
 */
module ConnDemux {
  import opened Base
  import opened Messages
  import WireFormat
  import opened Framing
  import Sync
  import opened Streams
  import opened Errors
  import opened ConnState
  import opened ConnInv

  /** A cancel's body is never longer than this (`WireFormat.CancelFits`). */
  const CANCEL_LEN: nat := 24

  /** The responses routed to `id` while it was in the table, in order. */
  function Live(routed: seq<Routed>, id: nat): seq<ResponseKind> {
    if routed == [] then []
    else
      var last := routed[|routed| - 1];
      Live(routed[..|routed| - 1], id)
      + if last.live && last.response.requestId == id then [last.response.kind] else []
  }

  /** What one response adds to a stream. */
  function ItemsIn(request: RequestKind, k: ResponseKind): seq<StreamItem> {
    match k
    case ReadEvents(events) => if Mapped(events).Some? then Mapped(events).value else []
    case CaughtUp(w) => if request.SubscribeRequest? then [CaughtUpItem(w)] else []
    case _ => []
  }

  function ItemsOf(request: RequestKind, ks: seq<ResponseKind>): seq<StreamItem> {
    if ks == [] then [] else ItemsOf(request, ks[..|ks| - 1]) + ItemsIn(request, ks[|ks| - 1])
  }

  /** A response after which the stream goes on. */
  predicate Continues(request: RequestKind, k: ResponseKind) {
    (k.ReadEvents? && Mapped(k.events).Some?) || (k.CaughtUp? && request.SubscribeRequest?)
  }

  /** A response that makes the client cancel the request before failing its stream. */
  predicate Violates(request: RequestKind, k: ResponseKind) {
    !Continues(request, k) && !k.ErrorResponse? && !(k.ReadEnd? && request.ReadRequest?)
  }

  /** What the consumer of a stream observes after the items, when a response ended it. */
  function Verdict(request: RequestKind, k: ResponseKind): Answer<StreamItem> {
    match k
    case ReadEnd(w) => if request.ReadRequest? then Ended else Failed(ProtocolError(UnexpectedKind))
    case ErrorResponse(e) => Failed(ServerError(e))
    case ReadEvents(events) => Failed(ProtocolError(MissingEvent))
    case _ => Failed(ProtocolError(UnexpectedKind))
  }

  function WatermarkIn(request: RequestKind, ks: seq<ResponseKind>): Option<int> {
    if ks != [] && ks[|ks| - 1].ReadEnd? && request.ReadRequest? then Some(ks[|ks| - 1].watermark) else None
  }

  /** How one response settles a call: by the answer it asked for, by the server's error, or as a violation. */
  function Reaction(request: RequestKind, k: ResponseKind): Settlement {
    match k
    case ErrorResponse(e) => Rejected(ServerError(e))
    case AppendResponse(a) =>
      if request.AppendRequest? then Resolved(AppendReply(a)) else Rejected(ProtocolError(UnexpectedKind))
    case StatsResponse(a) =>
      if request.StatsRequest? then Resolved(StatsReply(a)) else Rejected(ProtocolError(UnexpectedKind))
    case HelloAck(a) =>
      if !request.HelloRequest? then Rejected(ProtocolError(UnexpectedKind))
      else if a.protocolVersion == PROTOCOL_VERSION then Resolved(HelloReply)
      else Rejected(ProtocolError(VersionMismatch(a.protocolVersion)))
    case _ => Rejected(ProtocolError(UnexpectedKind))
  }

  /** A call hears at most one response, which settles it; otherwise it can only have been rejected. */
  ghost predicate CallHeard(open: bool, settled: seq<Settlement>, request: RequestKind, ks: seq<ResponseKind>) {
    if ks == [] then forall o <- settled :: o.Rejected?
    else !open && |ks| == 1 && settled == [Reaction(request, ks[0])]
  }

  /** A stream took exactly the items of the responses it heard, in order; only the last can have ended it. */
  ghost predicate Took(st: StreamState<StreamItem>, request: RequestKind, ks: seq<ResponseKind>) {
    && st.sink.Accepted() == ItemsOf(request, ks)
    && st.watermark == WatermarkIn(request, ks)
    && (forall i :: 0 <= i < |ks| - 1 ==> Continues(request, ks[i]))
  }

  /** The cause of death when a cancel did not fit a frame. */
  predicate CancelThrew(cause: Option<Error>) {
    cause.Some? && cause.value.ConnError? && cause.value.reason.ProtocolFailed? && cause.value.reason.cause.FrameError?
  }

  /**
   * What a stream ended by `k` observes: the response's verdict; or, if it had to be cancelled for `k`
   * and that cancel did not fit a frame, what the connection then died of.
   */
  ghost predicate EndedBy(st: StreamState<StreamItem>, request: RequestKind, k: ResponseKind, max: nat,
                          cause: Option<Error>)
  {
    && st.sink.done
    && (st.sink.Terminal() == Verdict(request, k)
        || (Violates(request, k) && max < CANCEL_LEN && CancelThrew(cause)
            && st.sink.Terminal() == Failed(cause.value)))
  }

  ghost predicate StreamHeard(open: bool, st: StreamState<StreamItem>, request: RequestKind, ks: seq<ResponseKind>,
                              max: nat, cause: Option<Error>)
  {
    && Took(st, request, ks)
    && (ks != [] && !Continues(request, ks[|ks| - 1]) ==> !open && EndedBy(st, request, ks[|ks| - 1], max, cause))
  }

  /** A stream whose cancel has just thrown: the connection is about to die of that. */
  ghost predicate StreamDoomed(st: StreamState<StreamItem>, request: RequestKind, ks: seq<ResponseKind>, max: nat) {
    Took(st, request, ks) && ks != [] && Violates(request, ks[|ks| - 1]) && max < CANCEL_LEN
  }

  /** `doomed`: entries still in the table whose cancel has thrown. */
  ghost predicate Heard(s: State, doomed: set<nat>) {
    && (forall id :: id in s.deferreds && id in s.issued ==>
          CallHeard(id in s.pending && id !in doomed, s.deferreds[id], s.issued[id], Live(s.routed, id)))
    && (forall id :: id in s.streams && id in s.issued ==>
          if id in s.pending && id in doomed
          then StreamDoomed(s.streams[id], s.issued[id], Live(s.routed, id), s.cfg.maxFrameLen)
          else StreamHeard(id in s.pending, s.streams[id], s.issued[id], Live(s.routed, id), s.cfg.maxFrameLen,
                           s.cause))
    && (forall id :: id !in s.issued ==> Live(s.routed, id) == [])
  }

  /** A batch is delivered whole, entry by entry, or not at all. */
  lemma {:induction false} MappedPointwise(events: seq<WireSequencedEvent>)
    ensures Mapped(events).Some? <==> forall e <- events :: e.event.Some?
    ensures Mapped(events).Some? ==>
              |Mapped(events).value| == |events|
              && forall i :: 0 <= i < |events| ==>
                   events[i].event.Some?
                   && Mapped(events).value[i] == EventItem(events[i].position, events[i].event.value)
  {
    if events != [] {
      var init := events[..|events| - 1];
      MappedPointwise(init);
      assert events == init + [events[|events| - 1]];
    }
  }

  // ---------------------------------------------------------------------------
  // Changes at one id
  // ---------------------------------------------------------------------------

  lemma LiveSnoc(routed: seq<Routed>, r: Routed, id: nat)
    ensures Live(routed + [r], id)
            == Live(routed, id) + if r.live && r.response.requestId == id then [r.response.kind] else []
  {
    assert (routed + [r])[..|routed|] == routed;
  }

  lemma ItemsSnoc(request: RequestKind, ks: seq<ResponseKind>, k: ResponseKind)
    ensures ItemsOf(request, ks + [k]) == ItemsOf(request, ks) + ItemsIn(request, k)
  {
    assert (ks + [k])[..|ks|] == ks;
  }

  /** Two states that agree on everything a request can observe, except at one id. */
  ghost predicate AgreeBut(s: State, t: State, x: nat) {
    && t.issued == s.issued && t.cfg == s.cfg && t.cause == s.cause
    && t.deferreds.Keys == s.deferreds.Keys && t.streams.Keys == s.streams.Keys
    && (forall id :: id in s.deferreds && id != x ==> t.deferreds[id] == s.deferreds[id])
    && (forall id :: id in s.streams && id != x ==> t.streams[id] == s.streams[id])
    && (forall id :: id in t.pending && id != x ==> id in s.pending)
    && (forall id :: id != x ==> Live(t.routed, id) == Live(s.routed, id))
  }

  lemma HeardLocal(s: State, t: State, x: nat)
    requires Heard(s, {}) && AgreeBut(s, t, x) && x in s.issued
    requires x in t.deferreds ==> CallHeard(x in t.pending, t.deferreds[x], t.issued[x], Live(t.routed, x))
    requires x in t.streams ==>
               StreamHeard(x in t.pending, t.streams[x], t.issued[x], Live(t.routed, x), t.cfg.maxFrameLen, t.cause)
    ensures Heard(t, {})
  {
    hide Live, ItemsOf, SinkState.Accepted, Continues, Violates, Verdict, Reaction, WatermarkIn, Took, EndedBy;
    hide StreamDoomed;
    forall id | id in t.deferreds && id in t.issued
      ensures CallHeard(id in t.pending, t.deferreds[id], t.issued[id], Live(t.routed, id))
    {
      assert id in s.deferreds.Keys;
    }
    forall id | id in t.streams && id in t.issued
      ensures StreamHeard(id in t.pending, t.streams[id], t.issued[id], Live(t.routed, id), t.cfg.maxFrameLen, t.cause)
    {
      assert id in s.streams.Keys;
    }
  }

  /** A turn that none of this is about. */
  lemma HeardSame(s: State, t: State)
    requires Heard(s, {}) && t.deferreds == s.deferreds && t.streams == s.streams && t.issued == s.issued
    requires t.pending.Keys == s.pending.Keys && t.routed == s.routed && t.cfg == s.cfg
    requires t.cause == s.cause
    ensures Heard(t, {})
  {
    hide Live, CallHeard, StreamHeard;
    assert forall id :: id in t.pending <==> id in t.pending.Keys;
    assert forall id :: id in s.pending <==> id in s.pending.Keys;
  }

  lemma RejectHeard(s: State, id: nat, e: Error)
    requires Core(s) && Heard(s, {}) && id in s.pending && id in s.deferreds
    ensures Heard(Settle(Finalize(s, id), id, Rejected(e)), {})
  {
    hide PermitsOk, SendersOk, WireOk, OriginOk, FramesOk, SlotsOk, WriterOk, DeadOk, StreamsOk, Heard, Live;
    var t := Settle(Finalize(s, id), id, Rejected(e));
    assert CallHeard(true, s.deferreds[id], s.issued[id], Live(s.routed, id)) by { HeardHere(s, id); }
    assert s.deferreds[id] == [];
    assert t.deferreds.Keys == s.deferreds.Keys;
    HeardLocal(s, t, id);
  }

  lemma HeardHere(s: State, id: nat)
    requires Heard(s, {}) && id in s.issued
    ensures id in s.deferreds ==> CallHeard(id in s.pending, s.deferreds[id], s.issued[id], Live(s.routed, id))
    ensures id in s.streams ==>
              StreamHeard(id in s.pending, s.streams[id], s.issued[id], Live(s.routed, id), s.cfg.maxFrameLen, s.cause)
  {
    hide Live, CallHeard, StreamHeard;
  }

  /** A change of one stream that neither gives it items nor revises its outcome, and possibly drops its entry. */
  lemma StreamHeardKept(open: bool, st: StreamState<StreamItem>, request: RequestKind, ks: seq<ResponseKind>, max: nat,
                        cause: Option<Error>, open': bool, st': StreamState<StreamItem>, cause': Option<Error>)
    requires StreamHeard(open, st, request, ks, max, cause) && (open' ==> open) && (cause.Some? ==> cause' == cause)
    requires st'.sink.Accepted() == st.sink.Accepted() && st'.watermark == st.watermark
    requires st.sink.done ==> st'.sink.done && st'.sink.error == st.sink.error
    ensures StreamHeard(open', st', request, ks, max, cause')
  {
    hide SinkState.Accepted, ItemsOf, Continues, Violates, Verdict;
  }

  /** The stream whose cancel threw is told what the connection dies of. */
  lemma DoomedDies(st: StreamState<StreamItem>, request: RequestKind, ks: seq<ResponseKind>, max: nat, e: Error)
    requires StreamDoomed(st, request, ks, max) && CancelThrew(Some(e)) && st.Valid() && !st.sink.done
    ensures StreamHeard(false, st.FailWith(e), request, ks, max, Some(e))
  {
    QuietOps(st, e);
    hide SinkState.Accepted, ItemsOf, Continues, Violates, Verdict;
  }

  lemma SetStreamHeard(s: State, t: State, id: nat, st: StreamState<StreamItem>)
    requires Core(s) && Heard(s, {}) && id in s.streams
    requires t == SetStream(s, id, st) || t == SetStream(Finalize(s, id), id, st)
    requires st.sink.Accepted() == s.streams[id].sink.Accepted() && st.watermark == s.streams[id].watermark
    requires s.streams[id].sink.done ==> st.sink.done && st.sink.error == s.streams[id].sink.error
    ensures Heard(t, {})
  {
    hide PermitsOk, SendersOk, WireOk, OriginOk, FramesOk, SlotsOk, WriterOk, DeadOk, StreamsOk, SettledOk, Heard;
    hide Live, StreamHeard, SinkState.Accepted;
    HeardHere(s, id);
    StreamHeardKept(id in s.pending, s.streams[id], s.issued[id], Live(s.routed, id), s.cfg.maxFrameLen, s.cause,
                    id in t.pending, st, t.cause);
    assert t.streams.Keys == s.streams.Keys;
    HeardLocal(s, t, id);
  }

  /** What the stream operations that take no item keep. */
  lemma QuietOps(st: StreamState<StreamItem>, e: Error)
    requires st.Valid()
    ensures forall st' <- [st.FailWith(e), st.Next(), st.StartCancel(),
                           st.(sink := st.sink.Finish()), st.(sink := st.sink.Fail(e))] ::
              && st'.sink.Accepted() == st.sink.Accepted() && st'.watermark == st.watermark
              && (st.sink.done ==> st'.sink.done && st'.sink.error == st.sink.error)
  {
    hide SinkState.Accepted;
    AcceptedAfter(st.sink, CaughtUpItem(0), e);
  }

  lemma FailEntryHeard(s: State, id: nat, e: Error)
    requires Core(s) && Heard(s, {})
    ensures Heard(FailEntry(s, id, e), {})
  {
    hide PermitsOk, SendersOk, WireOk, OriginOk, FramesOk, SlotsOk, WriterOk, DeadOk, SettledOk, Heard, IdsOk;
    hide SinkState.Accepted;
    if id in s.pending {
      EntryKnown(s, id);
      if IsCall(s.pending[id].kind) {
        RejectHeard(s, id, e);
      } else {
        QuietOps(s.streams[id], e);
        SetStreamHeard(s, FailEntry(s, id, e), id, s.streams[id].FailWith(e));
      }
    }
  }

  /** Death tells every entry the same thing, so what each heard does not change. */
  lemma FailConnectionHeard(s: State, e: Error, doomed: set<nat>)
    requires SettledOk(s.pending, s.deferreds) && StreamsOk(s.pending, s.streams) && Heard(s, doomed)
    requires IdsOk(s.pending, s.deferreds, s.streams, s.issued, s.idCounter)
    requires !s.dead && s.cause == None && (doomed != {} ==> CancelThrew(Some(e)))
    ensures Heard(FailConnection(s, e), {})
  {
    hide Live, PermitIds, CallHeard, StreamHeard, StreamDoomed, Signal, SinkState.Accepted, CancelThrew, Sync.Sem.Drain;
    hide IdsOk;
    var t := FailConnection(s, e);
    assert t.deferreds == FailedDeferreds(s, e) && t.streams == FailedStreams(s, e) && t.pending == map[];
    forall id | id in t.deferreds && id in t.issued
      ensures CallHeard(false, t.deferreds[id], t.issued[id], Live(t.routed, id))
    {
      CallFails(id in s.pending && id !in doomed, s.deferreds[id], s.issued[id], Live(s.routed, id), e);
      assert id in s.pending ==> s.deferreds[id] == [];
    }
    forall id | id in t.streams && id in t.issued
      ensures StreamHeard(false, t.streams[id], t.issued[id], Live(t.routed, id), t.cfg.maxFrameLen, t.cause)
    {
      if id in s.pending && id in doomed {
        EntryKnown(s, id);
        DoomedDies(s.streams[id], s.issued[id], Live(s.routed, id), s.cfg.maxFrameLen, e);
      } else {
        QuietOps(s.streams[id], e);
        StreamHeardKept(id in s.pending, s.streams[id], s.issued[id], Live(s.routed, id), s.cfg.maxFrameLen, s.cause,
                        false, t.streams[id], t.cause);
      }
    }
  }

  lemma CallFails(open: bool, settled: seq<Settlement>, request: RequestKind, ks: seq<ResponseKind>, e: Error)
    requires CallHeard(open, settled, request, ks)
    ensures CallHeard(false, settled, request, ks)
    ensures settled == [] ==> CallHeard(false, settled + [Rejected(e)], request, ks)
  {
  }

  lemma RegisterHeard(s: State, kind: PendingKind, request: RequestKind, listening: bool)
    requires Core(s) && Heard(s, {})
    ensures Heard(Register(s, kind, request, listening), {})
  {
    hide PermitsOk, SendersOk, WireOk, OriginOk, FramesOk, SlotsOk, WriterOk, DeadOk, SettledOk, StreamsOk, Live;
    hide CallHeard, StreamHeard, NewStream;
    assert s.idCounter + 1 !in s.issued;
    NothingHeard(request, listening, s.cfg.maxFrameLen, s.cause);
  }

  lemma NothingHeard(request: RequestKind, listening: bool, max: nat, cause: Option<Error>)
    ensures CallHeard(true, [], request, []) && StreamHeard(true, NewStream(listening), request, [], max, cause)
  {
  }

  // ---------------------------------------------------------------------------
  // Cancelling and opening
  // ---------------------------------------------------------------------------

  /** The queues, the writer and the counters are nobody's answer. */
  lemma OutboundHeard(s: State, t: State)
    requires Heard(s, {})
    requires t == s.(idCounter := t.idCounter, wire := t.wire, gate := t.gate, writer := t.writer, senders := t.senders,
                     inflight := t.inflight, slots := t.slots, refusals := t.refusals)
    ensures Heard(t, {})
  {
    hide Heard;
    HeardSame(s, t);
  }

  lemma CancelUnaryHeard(s: State, id: nat, e: Error)
    requires Core(s) && Heard(s, {}) && IsUnary(s, id)
    ensures Heard(CancelUnary(s, id, e).state, {})
  {
    hide PermitsOk, SendersOk, WireOk, OriginOk, FramesOk, SlotsOk, WriterOk, DeadOk, SettledOk, StreamsOk;
    hide SendCancel, Finalize, Heard;
    if id in s.pending {
      SendCancelCore(s, id);
      SendCancelKeeps(s, id);
      var t := SendCancel(s, id);
      OutboundHeard(s, t.state);
      if t.error.None? {
        RejectHeard(t.state, id, e);
      }
    }
  }

  lemma CancelStreamHeard(s: State, id: nat, st: StreamState<StreamItem>)
    requires Core(s) && Heard(s, {}) && id in s.streams
    requires st.sink.Accepted() == s.streams[id].sink.Accepted() && st.watermark == s.streams[id].watermark
    requires s.streams[id].sink.done ==> st.sink.done && st.sink.error == s.streams[id].sink.error
    ensures var t := CancelStream(s, id);
            Heard(if t.error.None? then SetStream(t.state, id, st) else t.state, {})
  {
    hide Core, SendCancel, Finalize, Heard, SinkState.Accepted;
    SendCancelCore(s, id);
    SendCancelKeeps(s, id);
    var t := SendCancel(s, id);
    OutboundHeard(s, t.state);
    if id in s.pending {
      if t.error.None? {
        SetStreamHeard(t.state, SetStream(Finalize(t.state, id), id, st), id, st);
      }
    } else {
      SetStreamHeard(s, SetStream(s, id, st), id, st);
    }
  }

  lemma EndStreamHeard(s: State, id: nat, aborted: Option<Error>)
    requires Core(s) && Heard(s, {}) && id in s.streams
    ensures Heard(EndStream(s, id, aborted), {})
  {
    hide PermitsOk, SendersOk, WireOk, OriginOk, FramesOk, SlotsOk, WriterOk, DeadOk, SettledOk, IdsOk;
    hide CancelStream, Heard, SinkState.Accepted;
    var st := s.streams[id];
    if !st.closed {
      var st1 := st.StartCancel();
      var s1 := SetStream(s, id, st1);
      var e := if aborted.Some? then aborted.value else WriteException;
      QuietOps(st, e);
      QuietOps(st1, e);
      SetStreamHeard(s, s1, id, st1);
      SetStreamCore(s, id, st1);
      var sink := if aborted.Some? then st.sink.Fail(aborted.value) else st.sink.Finish();
      CancelStreamHeard(s1, id, st1.(sink := sink));
      CancelStreamCore(s1, id, st1.(sink := sink));
    }
  }

  lemma OpenUnaryHeard(s: State, request: RequestKind, wants: Wanted, aborted: Option<Error>)
    requires Core(s) && Heard(s, {}) && KindMatches(UnaryPending(wants), request)
    ensures Heard(OpenUnary(s, request, wants, aborted), {})
  {
    hide Core, Heard, CancelUnary;
    if s.dead {
      OutboundHeard(s, OpenUnary(s, request, wants, aborted));
    } else {
      var id, s1 := s.idCounter + 1, Register(s, UnaryPending(wants), request, false);
      RegisterCore(s, UnaryPending(wants), request, false);
      RegisterHeard(s, UnaryPending(wants), request, false);
      if aborted.None? {
        OutboundHeard(s1, StartSender(s1, id, request));
      } else {
        CancelUnaryHeard(s1, id, aborted.value);
        var t := CancelUnary(s1, id, aborted.value);
        if t.error.None? {
          OutboundHeard(t.state, StartSender(t.state, id, request));
        }
      }
    }
  }

  lemma OpenOtherHeard(s: State, kind: PendingKind, request: RequestKind, listening: bool)
    requires Core(s) && Heard(s, {})
    ensures Heard(OpenOther(s, kind, request, listening), {})
  {
    hide Core, Heard;
    RegisterHeard(s, kind, request, listening);
    OutboundHeard(Register(s, kind, request, listening), OpenOther(s, kind, request, listening));
  }

  // ---------------------------------------------------------------------------
  // Senders and the writer
  // ---------------------------------------------------------------------------

  lemma ResumePermitHeard(s: State, id: nat)
    requires Core(s) && Heard(s, {}) && PermitReady(s, id)
    ensures Heard(ResumePermit(s, id), {})
  {
    hide Core, Heard, EncodedRequest, Frame, FailEntry;
    if id !in s.pending || s.dead {
      AbandonCore(s, id);
      OutboundHeard(s, Abandon(s, id));
      FailEntryHeard(Abandon(s, id), id, DeadError(s));
    } else {
      var s1, request := TakePermit(s, id), WireRequest(id, s.senders[id].kind);
      var body := EncodedRequest(request);
      TakePermitCore(s, id);
      HeardSame(s, s1);
      if |body| > s.cfg.maxFrameLen {
        FailEntryHeard(s1, id, FrameError(FrameTooLarge(|body|, s.cfg.maxFrameLen)));
      } else {
        HeardSame(s1, ResumePermit(s, id));
      }
    }
  }

  lemma ResumeSlotHeard(s: State, id: nat)
    requires Core(s) && Heard(s, {}) && SlotReady(s, id)
    ensures Heard(ResumeSlot(s, id), {})
  {
    hide IdsOk, WireOk, WriterOk, DeadOk, SettledOk, StreamsOk, FramesOk, OriginOk, SendersOk, PermitsOk, FailEntry;
    hide Heard;
    if s.dead {
      var s1 := s.(slots := s.slots.Resume(id).Release(), senders := s.senders - {id});
      SenderWakes(s.senders, s.inflight, s.slots, s.pending, id);
      SenderGone(s.senders, s.wire.ordinary, s.wire.cancels, s.issued, s.cfg.maxFrameLen, s.idCounter, id);
      OutboundHeard(s, s1);
      FailEntryHeard(s1, id, DeadError(s));
    } else {
      OutboundHeard(s, ResumeSlot(s, id));
    }
  }

  lemma RunWriterHeard(s: State, result: WriteResult)
    requires Core(s) && Heard(s, {}) && s.writer == Ready
    ensures Heard(RunWriter(s, result), {})
  {
    hide Core, Heard, Flatten, FailConnection, LastN, ReleaseTimes, AwaitGate;
    if !s.dead && (s.wire.priority != [] || s.wire.outbound != []) && result == Throws {
      var taken := s.(wire := s.wire.(priority := [], outbound := []), writer := Over);
      OutboundHeard(s, taken);
      ThrownHeard(s, taken);
    } else {
      WriterKeepsTables(s, result);
      HeardSame(s, RunWriter(s, result));
    }
  }

  lemma WriterKeepsTables(s: State, result: WriteResult)
    requires s.dead || (s.wire.priority == [] && s.wire.outbound == []) || result != Throws
    ensures var t := RunWriter(s, result); t == s.(wire := t.wire, slots := t.slots, gate := t.gate, writer := t.writer)
  {
    hide Flatten, LastN, ReleaseTimes;
  }

  lemma ThrownHeard(s: State, taken: State)
    requires Core(s) && !s.dead && taken == s.(wire := s.wire.(priority := [], outbound := []), writer := Over)
    requires Heard(taken, {})
    ensures Heard(FailConnection(taken, ConnError(WriteFailed(WriteException))).(writer := Over), {})
  {
    hide Heard, FailConnection;
    var e := ConnError(WriteFailed(WriteException));
    var dead := FailConnection(taken, e);
    FailConnectionHeard(taken, e, {});
    OutboundHeard(dead, dead.(writer := Over));
  }

  lemma ResumeWriterHeard(s: State, result: WriteResult)
    requires Core(s) && Heard(s, {})
    ensures Heard(ResumeWriter(s, result), {})
  {
    hide IdsOk, WireOk, DeadOk, SettledOk, StreamsOk, FramesOk, OriginOk, SendersOk, PermitsOk, SlotsOk, RunWriter;
    hide Heard;
    if s.writer == Ready {
      RunWriterHeard(s, result);
    } else if s.writer == DrainFailed {
      OutboundHeard(s, s.(writer := Over));
    }
  }

  lemma FailHeard(s: State, e: Error)
    requires Core(s) && Heard(s, {})
    ensures Heard(FailConnection(s, e), {})
  {
    hide Heard, FailConnection;
    if s.dead {
      DeadAlready(s, e);
    } else {
      CoreTables(s);
      FailConnectionHeard(s, e, {});
    }
  }

  lemma DeadAlready(s: State, e: Error)
    requires s.dead
    ensures FailConnection(s, e) == s
  {
  }

  lemma SocketGoneHeard(s: State, reason: ConnReason)
    requires Core(s) && Heard(s, {})
    ensures Heard(SocketGone(s, reason), {})
  {
    hide Core, Heard, FailConnection;
    var s1 := FailConnection(s, ConnError(reason));
    FailHeard(s, ConnError(reason));
    OutboundHeard(s1, s1.(writer := DrainFailed));
  }

  // ---------------------------------------------------------------------------
  // The reader
  // ---------------------------------------------------------------------------

  /** An open stream hears one more response. */
  lemma HearMore(st: StreamState<StreamItem>, request: RequestKind, ks: seq<ResponseKind>, k: ResponseKind, max: nat,
                 cause: Option<Error>, open': bool, st': StreamState<StreamItem>)
    requires StreamHeard(true, st, request, ks, max, cause)
    requires st'.sink.Accepted() == st.sink.Accepted() + ItemsIn(request, k)
    requires st'.watermark == if k.ReadEnd? && request.ReadRequest? then Some(k.watermark) else st.watermark
    ensures Took(st', request, ks + [k])
    ensures Continues(request, k) || (!open' && EndedBy(st', request, k, max, cause)) ==>
              StreamHeard(open', st', request, ks + [k], max, cause)
    ensures Violates(request, k) && max < CANCEL_LEN ==> StreamDoomed(st', request, ks + [k], max)
  {
    hide SinkState.Accepted, ItemsOf, ItemsIn, Verdict;
    ItemsSnoc(request, ks, k);
  }

  /** What each reaction of the router does to an open stream. */
  lemma Reactions(st: StreamState<StreamItem>, request: RequestKind, k: ResponseKind)
    requires st.Valid() && !st.sink.done && IsStreamRequest(request)
    ensures k.ReadEvents? && Mapped(k.events).Some? ==>
              DeliverAll(st, Mapped(k.events).value).sink.Accepted() == st.sink.Accepted() + ItemsIn(request, k)
              && DeliverAll(st, Mapped(k.events).value).watermark == st.watermark
    ensures k.CaughtUp? && request.SubscribeRequest? ==>
              st.Deliver(CaughtUpItem(k.watermark)).sink.Accepted() == st.sink.Accepted() + ItemsIn(request, k)
    ensures !Continues(request, k) ==>
              forall e: Error :: st.FailWith(e).sink.Accepted() == st.sink.Accepted() + ItemsIn(request, k)
                                 && st.FailWith(e).sink.done && st.FailWith(e).sink.Terminal() == Failed(e)
    ensures k.ReadEnd? ==>
              st.EndWith(k.watermark).sink.Accepted() == st.sink.Accepted() + ItemsIn(request, k)
              && st.EndWith(k.watermark).sink.done && st.EndWith(k.watermark).sink.Terminal() == Ended
    ensures !Continues(request, k) ==> st.sink.Accepted() + ItemsIn(request, k) == st.sink.Accepted()
  {
    if k.ReadEvents? && Mapped(k.events).Some? {
      DeliverAllAppends(st, Mapped(k.events).value);
    }
    hide Mapped, DeliverAll;
    if k.CaughtUp? {
      AcceptedAfter(st.sink, CaughtUpItem(k.watermark), WriteException);
    }
    AcceptedAfter(st.sink, CaughtUpItem(0), WriteException);
    forall e: Error
      ensures st.FailWith(e).sink.Accepted() == st.sink.Accepted()
    {
      AcceptedAfter(st.sink, CaughtUpItem(0), e);
    }
    hide SinkState.Accepted;
  }

  /** The stream at a live id hears the response that `t` has just recorded. */
  lemma HearAt(s: State, t: State, id: nat, k: ResponseKind, doomed: set<nat>)
    requires Core(s) && Heard(s, {}) && id in s.pending && id in s.streams
    requires t.issued == s.issued && t.cfg == s.cfg && t.deferreds == s.deferreds && id !in s.deferreds
    requires t.streams.Keys == s.streams.Keys && forall x :: x in s.streams && x != id ==> t.streams[x] == s.streams[x]
    requires t.pending == s.pending || t.pending == s.pending - {id}
    requires t.routed == s.routed + [Routed(WireResponse(id, k), true)]
    requires doomed == {} || doomed == {id}
    requires t.streams[id].sink.Accepted() == s.streams[id].sink.Accepted() + ItemsIn(s.issued[id], k)
    requires t.streams[id].watermark
             == if k.ReadEnd? && s.issued[id].ReadRequest? then Some(k.watermark) else s.streams[id].watermark
    requires t.cause == s.cause
    requires doomed == {} ==>
               Continues(s.issued[id], k)
               || (id !in t.pending && EndedBy(t.streams[id], s.issued[id], k, s.cfg.maxFrameLen, s.cause))
    requires doomed == {id} ==> id in t.pending && Violates(s.issued[id], k) && s.cfg.maxFrameLen < CANCEL_LEN
    ensures Heard(t, doomed)
  {
    hide Core, Live, CallHeard, StreamHeard, StreamDoomed, EndedBy, Took, SinkState.Accepted, Continues, Violates;
    hide Verdict, ItemsIn;
    assert id in s.issued by { EntryIssued(s, id); }
    var r := Routed(WireResponse(id, k), true);
    HearMore(s.streams[id], s.issued[id], Live(s.routed, id), k, s.cfg.maxFrameLen, s.cause, id in t.pending,
             t.streams[id]);
    forall x: nat
      ensures Live(t.routed, x) == if x == id then Live(s.routed, x) + [k] else Live(s.routed, x)
    {
      LiveSnoc(s.routed, r, x);
    }
    forall x | x in t.streams && x in t.issued
      ensures if x in t.pending && x in doomed
              then StreamDoomed(t.streams[x], t.issued[x], Live(t.routed, x), t.cfg.maxFrameLen)
              else StreamHeard(x in t.pending, t.streams[x], t.issued[x], Live(t.routed, x), t.cfg.maxFrameLen, t.cause)
    {
      assert x in s.streams.Keys;
    }
  }

  lemma EntryIssued(s: State, id: nat)
    requires Core(s) && id in s.pending
    ensures id in s.issued && KindMatches(s.pending[id].kind, s.issued[id]) && id >= 1
  {
  }

  /** A cancel is too long only for a maximum smaller than any cancel can need. */
  lemma SendCancelThrows(s: State, target: nat)
    ensures var e := SendCancel(s, target).error;
            e.Some? ==> !s.dead && s.cfg.maxFrameLen < CANCEL_LEN && e.value.FrameError?
  {
    hide EncodedRequest, Frame, Signal;
    WireFormat.CancelFits(s.idCounter + 1, target);
  }

  /** A protocol violation: the stream is failed, or the cancel threw and the connection is about to die. */
  lemma AbortHeard(s: State, id: nat, k: ResponseKind, e: Error)
    requires Core(s) && Heard(s, {}) && id in s.pending && id in s.streams
    requires Violates(s.issued[id], k) && Verdict(s.issued[id], k) == Failed(e)
    ensures var t := AbortStream(Record(s, WireResponse(id, k)), id, e);
            if t.error.None? then Heard(t.state, {})
            else Heard(t.state, {id}) && !t.state.dead && t.error.value.FrameError?
  {
    hide IdsOk, WireOk, DeadOk, SettledOk, FramesOk, OriginOk, SendersOk, PermitsOk, SlotsOk, WriterOk;
    hide Heard, Finalize, SendCancel, Continues, Violates, Verdict, ItemsIn, SinkState.Accepted;
    EntryIssued(s, id);
    EntryKnown(s, id);
    var s1 := Record(s, WireResponse(id, k));
    var c := SendCancel(s1, id);
    SendCancelKeeps(s1, id);
    SendCancelThrows(s1, id);
    FinalizeKeeps(c.state, id);
    StreamKinds(s, id);
    assert !Continues(s.issued[id], k) by { ViolationEnds(s.issued[id], k); }
    Reactions(s.streams[id], s.issued[id], k);
    var t := AbortStream(s1, id, e);
    if t.error.None? {
      assert t.state.streams[id] == s.streams[id].FailWith(e);
      ViolationEnds(s.issued[id], k);
      HearAt(s, t.state, id, k, {});
    } else {
      ViolationEnds(s.issued[id], k);
      HearAt(s, t.state, id, k, {id});
    }
  }

  lemma ViolationEnds(request: RequestKind, k: ResponseKind)
    requires Violates(request, k)
    ensures !Continues(request, k) && !(k.ReadEnd? && request.ReadRequest?)
  {
  }

  lemma StreamKinds(s: State, id: nat)
    requires Core(s) && id in s.pending && id in s.streams
    ensures IsStreamRequest(s.issued[id]) && s.streams[id].Valid() && !s.streams[id].sink.done
    ensures s.pending[id].kind == ReadPending <==> s.issued[id].ReadRequest?
    ensures s.pending[id].kind == SubscribePending <==> s.issued[id].SubscribeRequest?
    ensures id !in s.deferreds
  {
  }

  lemma RouteStreamHeard(s: State, id: nat, k: ResponseKind)
    requires Core(s) && Heard(s, {}) && id in s.pending && !IsCall(s.pending[id].kind)
    ensures var t := Dispatch(Record(s, WireResponse(id, k)), id, k);
            if t.error.None? then Heard(t.state, {})
            else Heard(t.state, {id}) && !t.state.dead && t.error.value.FrameError?
  {
    hide Core, Heard, Finalize, AbortStream, DeliverAll, Mapped, SinkState.Accepted;
    EntryIssued(s, id);
    assert id in s.streams by { KnownStream(s, id); }
    StreamKinds(s, id);
    var s1, request, st := Record(s, WireResponse(id, k)), s.issued[id], s.streams[id];
    Reactions(st, request, k);
    FinalizeKeeps(s1, id);
    var t := Dispatch(s1, id, k);
    if Violates(request, k) {
      if k.ReadEvents? {
        AbortHeard(s, id, k, ProtocolError(MissingEvent));
      } else {
        AbortHeard(s, id, k, ProtocolError(UnexpectedKind));
      }
    } else {
      HearAt(s, t.state, id, k, {});
    }
  }

  lemma KnownStream(s: State, id: nat)
    requires Core(s) && id in s.pending
    ensures if IsCall(s.pending[id].kind) then id in s.deferreds && id !in s.streams
            else id in s.streams && id !in s.deferreds
  {
  }

  lemma RouteCallHeard(s: State, id: nat, k: ResponseKind, o: Settlement)
    requires Core(s) && Heard(s, {}) && id in s.pending && IsCall(s.pending[id].kind) && o == Reaction(s.issued[id], k)
    ensures Heard(Settle(Finalize(Record(s, WireResponse(id, k)), id), id, o), {})
  {
    hide Live, Heard, Reaction, StreamHeard;
    hide PermitsOk, SendersOk, WireOk, OriginOk, FramesOk, SlotsOk, WriterOk, DeadOk, StreamsOk;
    EntryIssued(s, id);
    KnownStream(s, id);
    HeardHere(s, id);
    var t := Settle(Finalize(Record(s, WireResponse(id, k)), id), id, o);
    var r := Routed(WireResponse(id, k), true);
    forall x: nat
      ensures Live(t.routed, x) == if x == id then Live(s.routed, x) + [k] else Live(s.routed, x)
    {
      LiveSnoc(s.routed, r, x);
    }
    assert t.deferreds.Keys == s.deferreds.Keys;
    HeardLocal(s, t, id);
  }

  /** A response for an id not in the table is recorded and heard by nobody. */
  lemma UnheardResponse(s: State, r: WireResponse)
    requires Heard(s, {}) && r.requestId !in s.pending
    ensures Heard(Record(s, r), {})
  {
    hide CallHeard, StreamHeard;
    forall x: nat
      ensures Live(Record(s, r).routed, x) == Live(s.routed, x)
    {
      LiveSnoc(s.routed, Routed(r, false), x);
    }
    hide Live;
  }

  /** The router's two switches, one per kind of entry, agree with the table. */
  lemma ReactionRouted(kind: PendingKind, request: RequestKind, k: ResponseKind)
    requires KindMatches(kind, request)
    ensures kind.HelloPending? ==> HelloSettlement(k) == Reaction(request, k)
    ensures kind.UnaryPending? ==> UnarySettlement(kind.wants, k) == Reaction(request, k)
  {
  }

  lemma RouteHeard(s: State, r: WireResponse)
    requires Core(s) && Heard(s, {})
    ensures var t := Route(s, r);
            if t.error.None? then Heard(t.state, {})
            else r.requestId in s.pending && Heard(t.state, {r.requestId}) && !t.state.dead && t.error.value.FrameError?
  {
    hide Core, RouteRead, RouteSubscribe, FailConnection, Finalize, Heard, HelloSettlement, UnarySettlement, Reaction;
    var s1, id := Record(s, r), r.requestId;
    if id in s.pending {
      EntryIssued(s, id);
      assert r == WireResponse(id, r.kind);
      if IsCall(s.pending[id].kind) {
        ReactionRouted(s.pending[id].kind, s.issued[id], r.kind);
        RouteCallHeard(s, id, r.kind, Reaction(s.issued[id], r.kind));
      } else {
        RouteStreamHeard(s, id, r.kind);
      }
    } else {
      UnheardResponse(s, r);
      RecordCore(s, r);
      if id == 0 && r.kind.ErrorResponse? {
        FailHeard(s1, ConnError(Unattributed(ServerError(r.kind.error))));
      }
    }
  }

  lemma {:induction false} RouteAllHeard(s: State, bodies: seq<bytes>)
    requires Core(s) && Heard(s, {})
    ensures Heard(RouteAll(s, bodies), {})
    decreases |bodies|
  {
    hide Core, Route, FailConnection, DecodedResponse, Heard;
    if bodies != [] {
      match DecodedResponse(bodies[0])
      case Err(e) => FailHeard(s, ConnError(ProtocolFailed(BodyError(e))));
      case Ok(r) =>
        var t := Route(s, r);
        RouteCore(s, r);
        RouteHeard(s, r);
        if t.error.Some? {
          CoreTables(t.state);
          FailConnectionHeard(t.state, ConnError(ProtocolFailed(t.error.value)), {r.requestId});
        } else {
          RouteAllHeard(t.state, bodies[1..]);
        }
    }
  }

  lemma CoreTables(s: State)
    requires Core(s)
    ensures IdsOk(s.pending, s.deferreds, s.streams, s.issued, s.idCounter)
    ensures SettledOk(s.pending, s.deferreds) && StreamsOk(s.pending, s.streams) && (!s.dead ==> s.cause == None)
  {
  }

  lemma OnDataHeard(s: State, chunk: bytes)
    requires Core(s) && Heard(s, {})
    ensures Heard(OnData(s, chunk), {})
  {
    hide IdsOk, WireOk, DeadOk, SettledOk, StreamsOk, FramesOk, OriginOk, SendersOk, PermitsOk, SlotsOk, WriterOk;
    hide RouteAll, FailConnection, PushResult, Heard;
    var push := PushResult(s.cfg.maxFrameLen, s.buffer, chunk);
    var s1 := s.(buffer := push.1, received := s.received + chunk);
    HeardSame(s, s1);
    match push.0
    case Err(e) => FailHeard(s1, ConnError(FramingFailed(FrameError(e))));
    case Ok(bodies) => RouteAllHeard(s1, bodies);
  }

  // ---------------------------------------------------------------------------
  // Every turn, every run
  // ---------------------------------------------------------------------------

  lemma NextHeard(s: State, id: nat)
    requires Core(s) && Heard(s, {}) && id in s.streams
    ensures Heard(SetStream(s, id, s.streams[id].Next()), {})
  {
    hide IdsOk, WireOk, DeadOk, SettledOk, FramesOk, OriginOk, SendersOk, PermitsOk, SlotsOk, WriterOk, Heard;
    hide SinkState.Accepted;
    QuietOps(s.streams[id], WriteException);
    SetStreamHeard(s, SetStream(s, id, s.streams[id].Next()), id, s.streams[id].Next());
  }

  lemma StepHeard(s: State, ev: Event)
    requires Core(s) && Heard(s, {})
    ensures Heard(Step(s, ev), {})
  {
    hide Core, OpenUnary, OpenOther, CancelUnary, EndStream, ResumePermit, ResumeSlot, ResumeWriter, SocketGone;
    hide FailConnection, OnData, SetStream, PermitReady, SlotReady, IsUnary, Heard;
    match ev
    case CallAppend(append, aborted) => OpenUnaryHeard(s, AppendRequest(append), WantsAppend, aborted);
    case CallStats(aborted) => OpenUnaryHeard(s, StatsRequest, WantsStats, aborted);
    case CallRead(read, listening) => OpenOtherHeard(s, ReadPending, ReadRequest(read), listening);
    case CallSubscribe(subscribe, listening) =>
      OpenOtherHeard(s, SubscribePending, SubscribeRequest(subscribe), listening);
    case AbortCall(id, reason) => if IsUnary(s, id) { CancelUnaryHeard(s, id, reason); }
    case AbortOfStream(id, reason) => if id in s.streams { EndStreamHeard(s, id, Some(reason)); }
    case CloseOfStream(id) => if id in s.streams { EndStreamHeard(s, id, None); }
    case NextOfStream(id) => if id in s.streams { NextHeard(s, id); }
    case PermitResumes(id) => if PermitReady(s, id) { ResumePermitHeard(s, id); }
    case SlotResumes(id) => if SlotReady(s, id) { ResumeSlotHeard(s, id); }
    case WriterResumes(result) => ResumeWriterHeard(s, result);
    case Drained => if s.writer == Draining { OutboundHeard(s, s.(writer := Ready)); }
    case SocketError => SocketGoneHeard(s, SocketFailed);
    case SocketClosed => SocketGoneHeard(s, Closed);
    case CloseConnection => FailHeard(s, ConnError(Closed));
    case Data(chunk) => OnDataHeard(s, chunk);
  }

  lemma ConnectedHeard(cfg: Config, token: Option<bytes>)
    ensures Heard(Connected(cfg, token), {})
  {
    hide Core, OpenOther;
    InitCore(cfg);
    OpenOtherHeard(Init(cfg), HelloPending, HelloRequest(WireHello(PROTOCOL_VERSION, token)), false);
  }

  lemma {:induction false} RunHeard(start: State, events: seq<Event>)
    requires Core(start) && Heard(start, {})
    ensures Heard(Run(start, events), {})
  {
    hide Core, Step, Heard;
    if events != [] {
      RunCore(start, events[..|events| - 1]);
      RunHeard(start, events[..|events| - 1]);
      StepHeard(Run(start, events[..|events| - 1]), events[|events| - 1]);
    }
  }
}
