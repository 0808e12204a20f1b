/**
 * The connection as the code that runs: one object whose methods are its turns. Each method leaves the
 * object in the state that the step function of ConnState.dfy gives for the state it found.
 */
module Connection {
  import opened Base
  import Varints
  import opened Messages
  import Encoders
  import Decoders
  import opened Framing
  import opened Sync
  import opened Streams
  import opened Errors
  import opened ConnState
  import opened ConnInv
  import opened ConnDemux
  import opened ConnTheorems

  // ---------------------------------------------------------------------------
  // The loop of failConnection
  // ---------------------------------------------------------------------------

  ghost function Dead(s: State, e: Error): State {
    s.(dead := true, cause := Some(e), pending := map[], stranded := |PermitIds(s.pending)|, deathId := s.idCounter)
  }

  /** Death under way: the entries in `done` have been told. */
  ghost function PartlyTold(s: State, e: Error, done: set<nat>): State {
    Dead(s, e).(
      deferreds := map id | id in s.deferreds ::
        if id in done && id in s.pending && IsCall(s.pending[id].kind) then s.deferreds[id] + [Rejected(e)]
        else s.deferreds[id],
      streams := map id | id in s.streams ::
        if id in done && id in s.pending && !IsCall(s.pending[id].kind) then s.streams[id].FailWith(e)
        else s.streams[id])
  }

  lemma DeadState(s: State, e: Error)
    ensures var marked := s.(dead := true, cause := Some(e));
            Dead(s, e) == marked.(stranded := |PermitIds(s.pending)|, deathId := s.idCounter).(pending := map[])
  {
    hide PermitIds;
  }

  lemma NobodyTold(s: State, e: Error)
    ensures PartlyTold(s, e, {}) == Dead(s, e)
  {
    hide PermitIds, StreamState.FailWith;
    assert PartlyTold(s, e, {}).deferreds == s.deferreds && PartlyTold(s, e, {}).streams == s.streams;
  }

  lemma ToldOneMore(s: State, e: Error, done: set<nat>, id: nat)
    requires id in s.pending && id !in done
    requires if IsCall(s.pending[id].kind) then id in s.deferreds else id in s.streams
    ensures var t := PartlyTold(s, e, done);
            && t.deferreds.Keys == s.deferreds.Keys && t.streams.Keys == s.streams.Keys
            && PartlyTold(s, e, done + {id})
               == if IsCall(s.pending[id].kind) then Settle(t, id, Rejected(e))
                   else SetStream(t, id, StreamAt(t, id).FailWith(e))
  {
    hide PermitIds, StreamState.FailWith;
    var t, u := PartlyTold(s, e, done), PartlyTold(s, e, done + {id});
    if IsCall(s.pending[id].kind) {
      assert u.deferreds == t.deferreds[id := s.deferreds[id] + [Rejected(e)]] && u.streams == t.streams;
    } else {
      assert u.streams == t.streams[id := s.streams[id].FailWith(e)] && u.deferreds == t.deferreds;
    }
  }

  lemma EverybodyTold(s: State, e: Error)
    ensures PartlyTold(s, e, s.pending.Keys)
        == Dead(s, e).(deferreds := FailedDeferreds(s, e), streams := FailedStreams(s, e))
  {
    hide PermitIds, StreamState.FailWith;
    var t := PartlyTold(s, e, s.pending.Keys);
    assert t.deferreds == FailedDeferreds(s, e) && t.streams == FailedStreams(s, e);
  }

  /** A signal depends on, and changes, only the gate and the writer. */
  lemma SignalLocal(s: State, t: State)
    requires s.gate == t.gate && s.writer == t.writer
    ensures Signal(t) == t.(gate := Signal(s).gate, writer := Signal(s).writer)
  {
  }

  /** Death, then the entries, then the writer, then the slot waiters. */
  lemma DeathInSteps(s: State, e: Error)
    ensures ConnState.FailConnection(s, e)
            == if s.dead then s
               else
                 var told := Signal(PartlyTold(s, e, s.pending.Keys));
                 told.(slots := told.slots.Drain())
  {
    hide PartlyTold, PermitIds, FailedDeferreds, FailedStreams, Signal, Sem.Drain;
    EverybodyTold(s, e);
    SignalLocal(s, PartlyTold(s, e, s.pending.Keys));
  }

  lemma DeadErrorKept(s: State, t: State)
    requires s.cause == t.cause
    ensures ConnState.DeadError(s) == ConnState.DeadError(t)
  {
  }

  lemma CancelKeepsStreams(s: State, id: nat)
    ensures ConnState.CancelStream(s, id).state.streams == s.streams
  {
    hide ConnState.SendCancel, Finalize;
    SendCancelKeeps(s, id);
    FinalizeKeeps(ConnState.SendCancel(s, id).state, id);
  }

  /** A write the socket takes, and what the writer then awaits. */
  ghost function Wrote(s: State, data: bytes, requests: seq<WireRequest>, released: nat, result: WriteResult): State {
    var written := s.(wire := s.wire.(written := s.wire.written + data, sent := s.wire.sent + requests));
    var done := written.(slots := ReleaseTimes(written.slots, released));
    if result == Full then done.(writer := Draining) else ConnState.AwaitGate(done)
  }

  ghost function WriteThrew(s: State, cause: Error): State {
    ConnState.FailConnection(s.(writer := Over), ConnError(WriteFailed(cause))).(writer := Over)
  }

  ghost function BothTaken(s: State): State {
    var s1 := s.(wire := s.wire.(priority := []));
    s1.(wire := s1.wire.(outbound := []))
  }

  lemma TakenBoth(s: State)
    ensures BothTaken(s) == Emptied(s)
  {
  }

  lemma WroteBatch(s: State, result: WriteResult)
    ensures Wrote(Emptied(s), Flatten(s.wire.priority + s.wire.outbound), Batch(s.wire), |s.wire.outbound|, result)
            == if result == Full then Written(s).(writer := Draining) else ConnState.AwaitGate(Written(s))
  {
    hide Batch, Flatten, ReleaseTimes, ConnState.AwaitGate;
  }

  /** One turn of the writer, in the order it acts. */
  lemma RunWriterInSteps(s: State, result: WriteResult)
    ensures ConnState.RunWriter(s, result)
            == if s.dead then s.(writer := Over)
               else if s.wire.priority == [] && s.wire.outbound == [] then ConnState.AwaitGate(s)
               else if result == Throws then WriteThrew(BothTaken(s), WriteException)
               else Wrote(BothTaken(s), Flatten(s.wire.priority + s.wire.outbound), Batch(s.wire), |s.wire.outbound|,
                          result)
  {
    hide Batch, Flatten, Written, Wrote, BothTaken, Emptied, ConnState.AwaitGate, ConnState.FailConnection;
    TakenBoth(s);
    WroteBatch(s, result);
  }

  lemma DeliverNone(s: State, id: nat)
    requires id in s.streams
    ensures SetStream(s, id, DeliverAll(StreamAt(s, id), [])) == s
  {
    assert s.streams[id := s.streams[id]] == s.streams;
  }

  lemma DeliverSnoc(s: State, id: nat, items: seq<StreamItem>, item: StreamItem)
    requires id in s.streams
    ensures var t := SetStream(s, id, DeliverAll(StreamAt(s, id), items));
            SetStream(t, id, StreamAt(t, id).Deliver(item))
                == SetStream(s, id, DeliverAll(StreamAt(s, id), items + [item]))
  {
    hide StreamState.Deliver;
    assert (items + [item])[..|items|] == items;
    var st := DeliverAll(s.streams[id], items);
    assert s.streams[id := st][id := st.Deliver(item)] == s.streams[id := st.Deliver(item)];
  }

  lemma RecordKeeps(s: State, r: WireResponse)
    ensures Record(s, r).pending == s.pending
  {
  }

  /** `route(body)`, which may throw before there is a response. */
  function RouteBody(s: State, body: bytes): Turn {
    match DecodedResponse(body)
    case Err(e) => Turn(s, Some(BodyError(e)))
    case Ok(r) => Route(s, r)
  }

  lemma RouteAllStep(s: State, bodies: seq<bytes>)
    ensures bodies == [] ==> RouteAll(s, bodies) == s
    ensures bodies != [] ==>
              var t := RouteBody(s, bodies[0]);
              RouteAll(s, bodies)
              == if t.error.Some? then ConnState.FailConnection(t.state, ConnError(ProtocolFailed(t.error.value)))
                 else RouteAll(t.state, bodies[1..])
  {
    hide ConnState.FailConnection, Route, DecodedResponse;
  }

  /** `events.map(sequencedFromWire)`, with the exception as `None`. */
  method MapEvents(events: seq<WireSequencedEvent>) returns (r: Option<seq<StreamItem>>)
    ensures r == Mapped(events)
  {
    var items: seq<StreamItem> := [];
    assert events[..0] == [];
    for i := 0 to |events|
      invariant Mapped(events[..i]) == Some(items)
    {
      assert events[..i + 1][..i] == events[..i];
      if events[i].event.None? {
        MappedPointwise(events);
        assert events[i] in events;
        return None;
      }
      items := items + [EventItem(events[i].position, events[i].event.value)];
    }
    assert events[..|events|] == events;
    return Some(items);
  }

  /** Every stream belongs to one request, of an id already issued. */
  ghost predicate Unshared(streams: map<nat, Stream<StreamItem>>, idCounter: nat) {
    && (forall id :: id in streams ==> id <= idCounter)
    && forall i, j :: i in streams && j in streams && i != j ==>
         streams[i] != streams[j] && streams[i].sink != streams[j].sink
  }

  class Conn {
    const config: Config
    const inflight: Semaphore
    const queueSlots: Semaphore
    const decoder: FrameDecoder
    const writerGate: Gate
    var pending: map<nat, Pending>
    var outbound: seq<bytes>
    var priority: seq<bytes>
    var idCounter: nat
    var dead: bool
    var deathCause: Option<Error>

    /** What the entries' promises and streams refer to, by request id; these outlive the entries. */
    var deferreds: map<nat, seq<Settlement>>
    var streams: map<nat, Stream<StreamItem>>
    /** Promises returned already rejected. */
    var refusals: seq<Error>

    /** What each request asked for; the source keeps this in closures. */
    var issued: map<nat, RequestKind>
    /** Where each coroutine is suspended. */
    var senders: map<nat, Sender>
    var writer: WriterPc

    /** The socket, as the bytes it has been given, and the history of the run. */
    ghost var written: bytes
    ghost var ordinary: seq<WireRequest>
    ghost var cancels: seq<WireRequest>
    ghost var sent: seq<WireRequest>
    ghost var stranded: nat
    ghost var deathId: nat
    ghost var received: bytes
    ghost var routed: seq<Routed>

    ghost function StreamObjects(): set<object>
      reads `streams
    {
      (set id | id in streams :: streams[id]) + (set id | id in streams :: streams[id].sink)
    }

    ghost function StreamValues(): map<nat, StreamState<StreamItem>>
      reads `streams, StreamObjects()
    {
      map id | id in streams :: streams[id].Value()
    }

    ghost function Repr(): set<object>
      reads `streams
    {
      {this, inflight, queueSlots, decoder, writerGate} + StreamObjects()
    }

    ghost function State(): State
      reads this, Repr()
    {
      ConnState.State.State(config, pending, deferreds, StreamValues(), senders, inflight.Value(), queueSlots.Value(),
                            writerGate.Value(), writer, Wire(outbound, priority, written, ordinary, cancels, sent),
                            decoder.buffer, idCounter, dead, deathCause, refusals, issued, stranded, deathId,
                            received, routed)
    }

    /** The object's own fields, read off its state. */
    lemma Fields()
      ensures var s := State();
              && s.cfg == config && s.pending == pending && s.dead == dead && s.cause == deathCause
              && s.senders == senders && s.writer == writer && s.idCounter == idCounter
              && s.wire.outbound == outbound && s.wire.priority == priority
              && s.deferreds == deferreds && s.streams.Keys == streams.Keys && s.buffer == decoder.buffer
    {
    }

    ghost predicate Apart()
      reads `streams
    {
      {this, inflight, queueSlots, decoder, writerGate} !! StreamObjects()
    }

    /** No two requests share a stream, and every entry has its promise or stream. */
    ghost predicate Valid()
      reads this, Repr()
    {
      && inflight != queueSlots && Apart() && decoder.maxFrameLen == config.maxFrameLen
      && Unshared(streams, idCounter)
      && (forall id :: id in pending ==> if IsCall(pending[id].kind) then id in deferreds else id in streams)
    }

    lemma InitialState()
      requires inflight != queueSlots && decoder.maxFrameLen == config.maxFrameLen
      requires inflight.Value() == Sem(config.maxInflight, [], {})
          && queueSlots.Value() == Sem(config.queueDepth, [], {})
      requires decoder.buffer == [] && writerGate.Value() == GateState(true, false) && writer == Parked
      requires pending == map[] && outbound == [] && priority == [] && idCounter == 0 && !dead && deathCause == None
      requires deferreds == map[] && streams == map[] && refusals == [] && senders == map[]
      requires written == [] && ordinary == [] && cancels == [] && sent == [] && issued == map[]
      requires stranded == 0 && deathId == 0 && received == [] && routed == []
      ensures Valid() && Repr() == {this, inflight, queueSlots, decoder, writerGate} && State() == Init(config)
    {
      assert StreamObjects() == {} && StreamValues() == map[];
    }

    constructor (config: Config)
      ensures Valid() && State() == Init(config)
      ensures Repr() == {this, inflight, queueSlots, decoder, writerGate}
      ensures fresh(inflight) && fresh(queueSlots) && fresh(decoder) && fresh(writerGate)
    {
      this.config := config;
      inflight := new Semaphore(config.maxInflight);
      queueSlots := new Semaphore(config.queueDepth);
      decoder := new FrameDecoder(config.maxFrameLen);
      writerGate := new Gate();
      pending, outbound, priority, idCounter, dead, deathCause := map[], [], [], 0, false, None;
      deferreds, streams, refusals, senders := map[], map[], [], map[];
      writer := Ready;
      written, ordinary, cancels, sent, issued := [], [], [], [], map[];
      stranded, deathId, received, routed := 0, 0, [], [];
      new;
      hide StreamValues, StreamObjects, Valid, State, Repr;
      var parked := writerGate.Wait();
      writer := if parked then Parked else Ready;
      InitialState();
    }

    /** Only the objects of one stream have changed. */
    twostate lemma OneStream(id: nat)
      requires old(Valid()) && id in streams && streams == old(streams)
      requires forall o <- StreamObjects() :: o != streams[id] && o != streams[id].sink ==> unchanged(o)
      ensures StreamValues() == old(StreamValues())[id := streams[id].Value()]
    {
      forall x | x in streams && x != id
        ensures streams[x].Value() == old(streams[x].Value())
      {
        assert streams[x] in StreamObjects() && streams[x].sink in StreamObjects();
      }
    }

    // -------------------------------------------------------------------------
    // Bookkeeping
    // -------------------------------------------------------------------------

    /** `writerGate.signal()`: if the writer is parked there, its continuation will run. */
    method SignalWriter()
      requires Valid()
      modifies Repr()
      ensures Valid() && Repr() == old(Repr())
      ensures State() == Signal(old(State()))
    {
      hide StreamValues;
      var woke := writerGate.Signal();
      if woke {
        writer := Ready;
      }
    }

    method NextId() returns (id: nat)
      requires Valid()
      modifies Repr()
      ensures Valid() && Repr() == old(Repr())
      ensures State() == old(State()).(idCounter := id) && id == old(State()).idCounter + 1
    {
      hide StreamValues;
      idCounter := idCounter + 1;
      id := idCounter;
    }

    /** Removes a request and releases its in-flight permit if it held one. */
    method FinalizeEntry(id: nat)
      requires Valid()
      modifies Repr()
      ensures Valid() && Repr() == old(Repr())
      ensures State() == Finalize(old(State()), id)
    {
      hide StreamValues, Sem.Release;
      if id !in pending {
        return;
      }
      var permit := pending[id].permit;
      pending := pending - {id};
      if permit {
        inflight.Release();
      }
    }

    /** `entry.deferred.resolve` or `.reject`. */
    method SettlePromise(id: nat, o: Settlement)
      requires Valid()
      modifies Repr()
      ensures Valid() && Repr() == old(Repr())
      ensures State() == Settle(old(State()), id, o)
    {
      hide StreamValues;
      deferreds := deferreds[id := (if id in deferreds then deferreds[id] else []) + [o]];
    }

    // -------------------------------------------------------------------------
    // The entry's stream
    // -------------------------------------------------------------------------

    method DeliverItem(id: nat, item: StreamItem)
      requires Valid() && id in streams
      modifies Repr()
      ensures Valid() && Repr() == old(Repr())
      ensures State() == SetStream(old(State()), id, StreamAt(old(State()), id).Deliver(item))
    {
      streams[id].DeliverItem(item);
      OneStream(id);
    }

    method FailStream(id: nat, e: Error)
      requires Valid() && id in streams
      modifies Repr()
      ensures Valid() && Repr() == old(Repr())
      ensures State() == SetStream(old(State()), id, StreamAt(old(State()), id).FailWith(e))
    {
      streams[id].FailWith(e);
      OneStream(id);
    }

    method FinishRead(id: nat, watermark: int)
      requires Valid() && id in streams
      modifies Repr()
      ensures Valid() && Repr() == old(Repr())
      ensures State() == SetStream(old(State()), id, StreamAt(old(State()), id).EndWith(watermark))
    {
      streams[id].EndWith(watermark);
      OneStream(id);
    }

    method NextItem(id: nat)
      requires Valid() && id in streams
      modifies Repr()
      ensures Valid() && Repr() == old(Repr())
      ensures State() == SetStream(old(State()), id, StreamAt(old(State()), id).Next())
    {
      streams[id].Next();
      OneStream(id);
    }

    // -------------------------------------------------------------------------
    // Cancelling
    // -------------------------------------------------------------------------

    /** The framed encoding of a request, or the exception of one too long. */
    method FrameRequest(request: WireRequest) returns (r: Result<bytes, FrameError>)
      requires Valid()
      ensures Valid() && Repr() == old(Repr()) && State() == old(State())
      ensures var body := EncodedRequest(request);
              r == if |body| > config.maxFrameLen then Err(FrameTooLarge(|body|, config.maxFrameLen))
                  else Ok(Frame(body))
    {
      hide EncodedRequest, Frame;
      var body := Encoders.EncodeRequest(request);
      r := WriteFrame(body, config.maxFrameLen);
    }

    method PushPriority(frame: bytes, ghost request: WireRequest)
      requires Valid()
      modifies Repr()
      ensures Valid() && Repr() == old(Repr())
      ensures var s := old(State());
              State() == s.(wire := s.wire.(priority := s.wire.priority + [frame],
                                            cancels := s.wire.cancels + [request]))
    {
      hide StreamValues;
      priority := priority + [frame];
      cancels := cancels + [request];
    }

    /** Best effort, ahead of the queue, without a slot. `error` is the exception, if it throws. */
    method SendCancel(target: nat) returns (error: Option<Error>)
      requires Valid()
      modifies Repr()
      ensures Valid() && Repr() == old(Repr())
      ensures Turn(State(), error) == ConnState.SendCancel(old(State()), target)
    {
      hide StreamValues, StreamObjects, Valid, State, Repr, EncodedRequest, Frame;
      Fields();
      if dead {
        return None;
      }
      var id := NextId();
      var request := WireRequest(id, CancelRequest(target));
      var framed := FrameRequest(request);
      if framed.Err? {
        return Some(FrameError(framed.error));
      }
      PushPriority(framed.value, request);
      SignalWriter();
      return None;
    }

    method CancelStream(id: nat) returns (error: Option<Error>)
      requires Valid()
      modifies Repr()
      ensures Valid() && Repr() == old(Repr())
      ensures Turn(State(), error) == ConnState.CancelStream(old(State()), id)
    {
      hide StreamValues, StreamObjects, Valid, State, Repr, ConnState.SendCancel, Finalize;
      Fields();
      if id !in pending {
        return None;
      }
      error := SendCancel(id);
      if error.None? {
        FinalizeEntry(id);
      }
    }

    method CancelUnary(id: nat, e: Error) returns (error: Option<Error>)
      requires Valid()
      modifies Repr()
      ensures Valid() && Repr() == old(Repr())
      ensures Turn(State(), error) == ConnState.CancelUnary(old(State()), id, e)
    {
      hide StreamValues, StreamObjects, Valid, State, Repr, ConnState.SendCancel, Finalize, Settle;
      Fields();
      if id !in pending {
        return None;
      }
      var entry := pending[id];
      error := SendCancel(id);
      if error.Some? {
        return;
      }
      FinalizeEntry(id);
      if entry.kind.UnaryPending? {
        SettlePromise(id, Rejected(e));
      }
    }

    // -------------------------------------------------------------------------
    // Opening requests
    // -------------------------------------------------------------------------

    method NewPromise(id: nat)
      requires Valid()
      modifies Repr()
      ensures Valid() && Repr() == old(Repr()) && id in deferreds
      ensures State() == old(State()).(deferreds := old(State()).deferreds[id := []])
    {
      hide StreamValues;
      deferreds := deferreds[id := []];
    }

    twostate lemma Joined(id: nat, new stream: Stream<StreamItem>)
      requires id !in old(streams) && streams == old(streams)[id := stream]
      requires forall o <- old(StreamObjects()) :: unchanged(o)
      ensures StreamObjects() == old(StreamObjects()) + {stream, stream.sink}
      ensures StreamValues() == old(StreamValues())[id := stream.Value()]
      ensures old(Unshared(streams, idCounter)) && id <= old(idCounter) && fresh(stream) && fresh(stream.sink) ==>
                Unshared(streams, old(idCounter))
      ensures old(Apart()) && fresh(stream) && fresh(stream.sink) ==> Apart()
    {
      forall o | o in old(StreamObjects())
        ensures o in StreamObjects()
      {
        var x :| x in old(streams) && (o == old(streams)[x] || o == old(streams)[x].sink);
        assert streams[x] == old(streams)[x];
      }
      forall o | o in StreamObjects()
        ensures o in old(StreamObjects()) || o == stream || o == stream.sink
      {
        var x :| x in streams && (o == streams[x] || o == streams[x].sink);
        assert x != id ==> streams[x] == old(streams)[x];
      }
      assert streams[id] == stream;
      forall x | x in old(streams)
        ensures streams[x].Value() == old(streams[x].Value())
      {
        assert streams[x] == old(streams)[x];
        assert streams[x] in old(StreamObjects()) && streams[x].sink in old(StreamObjects());
      }
    }

    method OpenStream(id: nat, listening: bool)
      requires Valid() && id !in streams && id <= idCounter
      modifies Repr()
      ensures Valid() && id in streams && forall o <- Repr() :: o in old(Repr()) || fresh(o)
      ensures State() == SetStream(old(State()), id, NewStream(listening))
    {
      hide StreamValues, Unshared, Apart;
      var stream := new Stream(listening);
      streams := streams[id := stream];
      Joined(id, stream);
      hide StreamObjects;
    }

    method AddEntry(id: nat, kind: PendingKind, request: RequestKind)
      requires Valid() && if IsCall(kind) then id in deferreds else id in streams
      modifies Repr()
      ensures Valid() && Repr() == old(Repr())
      ensures var s := old(State());
              State() == s.(pending := s.pending[id := Pending(kind, false)], issued := s.issued[id := request])
    {
      hide StreamValues;
      pending := pending[id := Pending(kind, false)];
      issued := issued[id := request];
    }

    /** Ids count up, so the next one is free. */
    lemma NextIdFree()
      requires Valid()
      ensures idCounter + 1 !in streams
    {
    }

    /** A new id, its promise or stream, and its entry. */
    method Register(kind: PendingKind, request: RequestKind, listening: bool) returns (id: nat)
      requires Valid()
      modifies Repr()
      ensures Valid() && forall o <- Repr() :: o in old(Repr()) || fresh(o)
      ensures State() == ConnState.Register(old(State()), kind, request, listening) && id == old(State()).idCounter + 1
    {
      hide StreamValues, StreamObjects, Valid, State, Repr;
      Fields();
      NextIdFree();
      id := NextId();
      Fields();
      if IsCall(kind) {
        NewPromise(id);
      } else {
        OpenStream(id, listening);
      }
      AddEntry(id, kind, request);
    }

    method StartSender(id: nat, request: RequestKind)
      requires Valid()
      modifies Repr()
      ensures Valid() && Repr() == old(Repr())
      ensures State() == ConnState.StartSender(old(State()), id, request)
    {
      hide StreamValues, Sem.Acquire;
      senders := senders[id := AwaitPermit(request)];
      inflight.Acquire(id);
    }

    method DeadError() returns (e: Error)
      requires Valid()
      ensures Valid() && Repr() == old(Repr()) && State() == old(State()) && e == ConnState.DeadError(State())
    {
      hide StreamValues;
      e := if deathCause.Some? then deathCause.value else ConnError(Closed);
    }

    method Refuse()
      requires Valid()
      modifies Repr()
      ensures Valid() && Repr() == old(Repr())
      ensures State() == old(State()).(refusals := old(State()).refusals + [ConnState.DeadError(old(State()))])
    {
      hide StreamValues;
      var e := DeadError();
      refusals := refusals + [e];
    }

    /** `append` and `stats`. `aborted` is the reason of a signal that has already fired. */
    method Unary(request: RequestKind, wants: Wanted, aborted: Option<Error>)
      requires Valid()
      modifies Repr()
      ensures Valid() && forall o <- Repr() :: o in old(Repr()) || fresh(o)
      ensures State() == OpenUnary(old(State()), request, wants, aborted)
    {
      hide StreamValues, StreamObjects, Valid, State, Repr, ConnState.Register, ConnState.CancelUnary;
      hide ConnState.StartSender;
      hide ConnState.DeadError;
      Fields();
      if dead {
        Refuse();
        return;
      }
      var id := Register(UnaryPending(wants), request, false);
      if aborted.Some? {
        var error := CancelUnary(id, aborted.value);
        if error.Some? {
          return;
        }
      }
      StartSender(id, request);
    }

    /** `read`, `subscribe` and `hello`: they do not look at `dead`. */
    method Open(kind: PendingKind, request: RequestKind, listening: bool)
      requires Valid()
      modifies Repr()
      ensures Valid() && forall o <- Repr() :: o in old(Repr()) || fresh(o)
      ensures State() == OpenOther(old(State()), kind, request, listening)
    {
      hide StreamValues, StreamObjects, Valid, State, Repr, ConnState.Register, ConnState.StartSender;
      var id := Register(kind, request, listening);
      StartSender(id, request);
    }

    // -------------------------------------------------------------------------
    // Senders resuming
    // -------------------------------------------------------------------------

    /** The catch clauses of the senders: finalise the entry, then reject its promise or fail its stream. */
    method FailSender(id: nat, e: Error)
      requires Valid()
      modifies Repr()
      ensures Valid() && Repr() == old(Repr())
      ensures State() == FailEntry(old(State()), id, e)
    {
      hide StreamValues, StreamObjects, State, Repr, Finalize, Settle, SetStream;
      Fields();
      if id !in pending {
        return;
      }
      var entry := pending[id];
      FinalizeKeeps(State(), id);
      FinalizeEntry(id);
      Fields();
      if IsCall(entry.kind) {
        SettlePromise(id, Rejected(e));
      } else {
        FailStream(id, e);
      }
    }

    method PickUpPermit(id: nat)
      requires Valid() && PermitReady(State(), id)
      modifies Repr()
      ensures Valid() && Repr() == old(Repr())
      ensures State() == old(State()).(inflight := old(State()).inflight.Resume(id),
                                       senders := old(State()).senders - {id})
    {
      hide StreamValues, Sem.Resume;
      inflight.Resume(id);
      senders := senders - {id};
    }

    method ReleasePermit()
      requires Valid()
      modifies Repr()
      ensures Valid() && Repr() == old(Repr())
      ensures State() == old(State()).(inflight := old(State()).inflight.Release())
    {
      hide StreamValues, Sem.Release;
      inflight.Release();
    }

    method OwnPermit(id: nat)
      requires Valid() && id in pending
      modifies Repr()
      ensures Valid() && Repr() == old(Repr())
      ensures var s := old(State()); State() == s.(pending := s.pending[id := s.pending[id].(permit := true)])
    {
      hide StreamValues;
      pending := pending[id := pending[id].(permit := true)];
    }

    method AwaitQueueSlot(id: nat, frame: bytes, request: WireRequest)
      requires Valid()
      modifies Repr()
      ensures Valid() && Repr() == old(Repr())
      ensures var s := old(State());
              State() == s.(senders := s.senders[id := AwaitSlot(frame, request)], slots := s.slots.Acquire(id))
    {
      hide StreamValues, Sem.Acquire;
      senders := senders[id := AwaitSlot(frame, request)];
      queueSlots.Acquire(id);
    }

    /** After `await this.inflight.acquire()`. */
    method ResumeAtPermit(id: nat)
      requires Valid() && PermitReady(State(), id)
      modifies Repr()
      ensures Valid() && Repr() == old(Repr())
      ensures State() == ResumePermit(old(State()), id)
    {
      hide StreamValues, StreamObjects, Valid, State, Repr, EncodedRequest, Frame, FailEntry, ConnState.DeadError;
      hide Sem.Resume, Sem.Release, Sem.Acquire;
      Fields();
      ghost var s := State();
      var kind := senders[id].kind;
      PickUpPermit(id);
      Fields();
      if id !in pending {
        ReleasePermit();
        return;
      }
      if dead {
        ReleasePermit();
        var e := DeadError();
        DeadErrorKept(s, State());
        FailSender(id, e);
        return;
      }
      OwnPermit(id);
      var request := WireRequest(id, kind);
      var framed := FrameRequest(request);
      Fields();
      if framed.Err? {
        FailSender(id, FrameError(framed.error));
        return;
      }
      assert (s.senders - {id})[id := AwaitSlot(framed.value, request)]
          == s.senders[id := AwaitSlot(framed.value, request)];
      AwaitQueueSlot(id, framed.value, request);
    }

    method PickUpSlot(id: nat)
      requires Valid() && SlotReady(State(), id)
      modifies Repr()
      ensures Valid() && Repr() == old(Repr())
      ensures State() == old(State()).(slots := old(State()).slots.Resume(id), senders := old(State()).senders - {id})
    {
      hide StreamValues, Sem.Resume;
      queueSlots.Resume(id);
      senders := senders - {id};
    }

    method ReleaseSlot()
      requires Valid()
      modifies Repr()
      ensures Valid() && Repr() == old(Repr())
      ensures State() == old(State()).(slots := old(State()).slots.Release())
    {
      hide StreamValues, Sem.Release;
      queueSlots.Release();
    }

    method PushOutbound(frame: bytes, ghost request: WireRequest)
      requires Valid()
      modifies Repr()
      ensures Valid() && Repr() == old(Repr())
      ensures var s := old(State());
              State() == s.(wire := s.wire.(outbound := s.wire.outbound + [frame],
                                            ordinary := s.wire.ordinary + [request]))
    {
      hide StreamValues;
      outbound := outbound + [frame];
      ordinary := ordinary + [request];
    }

    /** In `enqueue`, after `await this.queueSlots.acquire()`. */
    method ResumeAtSlot(id: nat)
      requires Valid() && SlotReady(State(), id)
      modifies Repr()
      ensures Valid() && Repr() == old(Repr())
      ensures State() == ResumeSlot(old(State()), id)
    {
      hide StreamValues, StreamObjects, Valid, State, Repr, FailEntry, Signal, ConnState.DeadError;
      hide Sem.Resume, Sem.Release;
      Fields();
      ghost var s := State();
      var sender := senders[id];
      PickUpSlot(id);
      Fields();
      if dead {
        ReleaseSlot();
        var e := DeadError();
        DeadErrorKept(s, State());
        FailSender(id, e);
        return;
      }
      PushOutbound(sender.frame, sender.request);
      SignalWriter();
    }

    // -------------------------------------------------------------------------
    // Death
    // -------------------------------------------------------------------------

    method MarkDead(err: Error)
      requires Valid()
      modifies Repr()
      ensures Valid() && Repr() == old(Repr())
      ensures State() == old(State()).(dead := true, cause := Some(err))
    {
      hide StreamValues;
      dead := true;
      deathCause := Some(err);
    }

    ghost method RecordDeath(permits: nat)
      requires Valid()
      modifies Repr()
      ensures Valid() && Repr() == old(Repr())
      ensures State() == old(State()).(stranded := permits, deathId := old(State()).idCounter)
    {
      hide StreamValues;
      stranded, deathId := permits, idCounter;
    }

    method ClearPending()
      requires Valid()
      modifies Repr()
      ensures Valid() && Repr() == old(Repr())
      ensures State() == old(State()).(pending := map[])
    {
      hide StreamValues;
      pending := map[];
    }

    method WakeSlotWaiters()
      requires Valid()
      modifies Repr()
      ensures Valid() && Repr() == old(Repr())
      ensures State() == old(State()).(slots := old(State()).slots.Drain())
    {
      hide StreamValues, Sem.Drain;
      queueSlots.DrainWaiters();
    }

    lemma EntriesKnown()
      requires Valid()
      ensures forall id :: id in pending ==> if IsCall(pending[id].kind) then id in deferreds else id in streams
    {
    }

    /** Rejects the promise or fails the stream of each entry. */
    method TellEntries(entries: map<nat, Pending>, err: Error, ghost s: State)
      requires Valid() && State() == Dead(s, err) && entries == s.pending
      requires forall id :: id in entries ==> if IsCall(entries[id].kind) then id in s.deferreds else id in s.streams
      modifies Repr()
      ensures Valid() && Repr() == old(Repr())
      ensures State() == PartlyTold(s, err, s.pending.Keys)
    {
      hide StreamValues, StreamObjects, Valid, State, Repr, Settle, SetStream, Dead, PartlyTold;
      var todo := entries.Keys;
      NobodyTold(s, err);
      assert entries.Keys - todo == {};
      while todo != {}
        invariant Valid() && Repr() == old(Repr()) && todo <= entries.Keys
        invariant State() == PartlyTold(s, err, entries.Keys - todo)
        decreases |todo|
      {
        var id :| id in todo;
        ToldOneMore(s, err, entries.Keys - todo, id);
        Fields();
        if IsCall(entries[id].kind) {
          SettlePromise(id, Rejected(err));
        } else {
          FailStream(id, err);
        }
        assert entries.Keys - (todo - {id}) == entries.Keys - todo + {id};
        todo := todo - {id};
      }
      assert entries.Keys - todo == s.pending.Keys;
    }

    /** The first cause wins: rejects every pending call and fails every pending stream, then wakes everybody. */
    method FailConnection(err: Error)
      requires Valid()
      modifies Repr()
      ensures Valid() && Repr() == old(Repr())
      ensures State() == ConnState.FailConnection(old(State()), err)
    {
      hide StreamValues, StreamObjects, Valid, State, Repr, Dead, PartlyTold, ConnState.FailConnection;
      Fields();
      EntriesKnown();
      DeathInSteps(State(), err);
      if dead {
        return;
      }
      ghost var s := State();
      var entries := pending;
      MarkDead(err);
      RecordDeath(|PermitIds(entries)|);
      ClearPending();
      assert State() == Dead(s, err) by { DeadState(s, err); }
      TellEntries(entries, err, s);
      SignalWriter();
      WakeSlotWaiters();
    }

    // -------------------------------------------------------------------------
    // The user's ends of a stream
    // -------------------------------------------------------------------------

    method BeginCancel(id: nat) returns (call: bool)
      requires Valid() && id in streams
      modifies Repr()
      ensures Valid() && Repr() == old(Repr()) && id in streams
      ensures call == !StreamAt(old(State()), id).closed
      ensures State() == if call then SetStream(old(State()), id, StreamAt(old(State()), id).StartCancel())
          else old(State())
    {
      call := streams[id].StartCancel();
      OneStream(id);
    }

    method EndSink(id: nat, aborted: Option<Error>)
      requires Valid() && id in streams
      modifies Repr()
      ensures Valid() && Repr() == old(Repr())
      ensures var st := StreamAt(old(State()), id);
              State() == SetStream(old(State()), id,
                                   st.(sink := if aborted.Some? then st.sink.Fail(aborted.value) else st.sink.Finish()))
    {
      if aborted.Some? {
        streams[id].sink.Fail(aborted.value);
      } else {
        streams[id].sink.Finish();
      }
      OneStream(id);
    }

    /** `onAbort` and `close` of a stream; if the cancel throws, the sink is never ended. */
    method EndStream(id: nat, aborted: Option<Error>)
      requires Valid() && id in streams
      modifies Repr()
      ensures Valid() && Repr() == old(Repr())
      ensures State() == ConnState.EndStream(old(State()), id, aborted)
    {
      hide StreamValues, StreamObjects, Valid, State, Repr, ConnState.CancelStream, StreamState.StartCancel;
      hide SinkState.Fail, SinkState.Finish;
      Fields();
      var call := BeginCancel(id);
      if !call {
        return;
      }
      CancelKeepsStreams(State(), id);
      Fields();
      var error := CancelStream(id);
      if error.Some? {
        return;
      }
      Fields();
      EndSink(id, aborted);
    }

    // -------------------------------------------------------------------------
    // The writer
    // -------------------------------------------------------------------------

    method AwaitGate()
      requires Valid()
      modifies Repr()
      ensures Valid() && Repr() == old(Repr())
      ensures State() == ConnState.AwaitGate(old(State()))
    {
      hide StreamValues;
      var parked := writerGate.Wait();
      writer := if parked then Parked else Ready;
    }

    method SetWriter(w: WriterPc)
      requires Valid()
      modifies Repr()
      ensures Valid() && Repr() == old(Repr())
      ensures State() == old(State()).(writer := w)
    {
      hide StreamValues;
      writer := w;
    }

    method TakePriority() returns (batch: seq<bytes>)
      requires Valid()
      modifies Repr()
      ensures Valid() && Repr() == old(Repr()) && batch == old(State()).wire.priority
      ensures State() == old(State()).(wire := old(State()).wire.(priority := []))
    {
      hide StreamValues;
      batch := [];
      while |priority| > 0
        invariant batch + priority == old(priority)
        modifies this`priority
        decreases |priority|
      {
        batch := batch + [priority[0]];
        priority := priority[1..];
      }
    }

    method TakeOutbound() returns (batch: seq<bytes>, released: nat)
      requires Valid()
      modifies Repr()
      ensures Valid() && Repr() == old(Repr())
      ensures batch == old(State()).wire.outbound && released == |batch|
      ensures State() == old(State()).(wire := old(State()).wire.(outbound := []))
    {
      hide StreamValues;
      batch, released := [], 0;
      while |outbound| > 0
        invariant batch + outbound == old(outbound) && released == |batch|
        modifies this`outbound
        decreases |outbound|
      {
        batch := batch + [outbound[0]];
        outbound := outbound[1..];
        released := released + 1;
      }
    }

    method Concatenate(batch: seq<bytes>) returns (data: bytes)
      requires Valid()
      ensures Valid() && Repr() == old(Repr()) && State() == old(State())
      ensures data == Flatten(batch)
    {
      hide StreamValues;
      data := ConcatFrames(batch);
    }

    /** The socket takes the bytes. */
    ghost method RecordWrite(data: bytes, requests: seq<WireRequest>)
      requires Valid()
      modifies Repr()
      ensures Valid() && Repr() == old(Repr())
      ensures var s := old(State());
              State() == s.(wire := s.wire.(written := s.wire.written + data, sent := s.wire.sent + requests))
    {
      hide StreamValues;
      written := written + data;
      sent := sent + requests;
    }

    method ReleaseSlots(released: nat)
      requires Valid()
      modifies Repr()
      ensures Valid() && Repr() == old(Repr())
      ensures State() == old(State()).(slots := ReleaseTimes(old(State()).slots, released))
    {
      hide StreamValues, StreamObjects, Valid, State, Repr, Sem.Release;
      ghost var s := State();
      for i := 0 to released
        invariant Valid() && Repr() == old(Repr())
        invariant State() == s.(slots := State().slots)
        invariant ReleaseTimes(s.slots, released) == ReleaseTimes(State().slots, released - i)
      {
        ReleaseSlot();
      }
    }

    /** The catch clause of the writer. */
    method WriterFails(cause: Error)
      requires Valid()
      modifies Repr()
      ensures Valid() && Repr() == old(Repr())
      ensures State() == WriteThrew(old(State()), cause)
    {
      hide StreamValues, StreamObjects, Valid, State, Repr, ConnState.FailConnection;
      SetWriter(Over);
      FailConnection(ConnError(WriteFailed(cause)));
      SetWriter(Over);
    }

    /** A write the socket takes: the slots are free again, and the writer awaits drain or loops. */
    method WriterWrites(data: bytes, ghost requests: seq<WireRequest>, released: nat, result: WriteResult)
      requires Valid()
      modifies Repr()
      ensures Valid() && Repr() == old(Repr())
      ensures State() == Wrote(old(State()), data, requests, released, result)
    {
      hide StreamValues, StreamObjects, Valid, State, Repr, ConnState.AwaitGate, ReleaseTimes;
      RecordWrite(data, requests);
      ReleaseSlots(released);
      if result == Full {
        SetWriter(Draining);
      } else {
        AwaitGate();
      }
    }

    /** Both queues go to the socket as one batch, cancels first. */
    method WriteQueued(result: WriteResult)
      requires Valid()
      modifies Repr()
      ensures Valid() && Repr() == old(Repr())
      ensures var s := old(State());
              State() == if result == Throws then WriteThrew(BothTaken(s), WriteException)
                         else Wrote(BothTaken(s), Flatten(s.wire.priority + s.wire.outbound), Batch(s.wire),
                                    |s.wire.outbound|, result)
    {
      hide StreamValues, StreamObjects, Valid, State, Repr, Batch, Flatten, WriteThrew, Wrote;
      ghost var requests := Batch(State().wire);
      var first := TakePriority();
      var second, released := TakeOutbound();
      var data := Concatenate(first + second);
      if result == Throws {
        WriterFails(WriteException);
      } else {
        WriterWrites(data, requests, released, result);
      }
    }

    /** The body of `while (!this.dead)` up to the next `await`. `result` is what `socket.write` will do. */
    method RunWriter(result: WriteResult)
      requires Valid() && writer == Ready
      modifies Repr()
      ensures Valid() && Repr() == old(Repr())
      ensures State() == ConnState.RunWriter(old(State()), result)
    {
      hide StreamValues, StreamObjects, Valid, State, Repr, ConnState.AwaitGate, ConnState.RunWriter, BothTaken;
      hide WriteThrew, Wrote;
      hide Batch, Flatten;
      Fields();
      RunWriterInSteps(State(), result);
      if dead {
        SetWriter(Over);
        return;
      }
      if |priority| == 0 && |outbound| == 0 {
        AwaitGate();
        return;
      }
      WriteQueued(result);
    }

    /** The writer's continuation: the loop again, or the catch clause after a failed drain. */
    method ResumeAtWriter(result: WriteResult)
      requires Valid() && (writer == Ready || writer == DrainFailed)
      modifies Repr()
      ensures Valid() && Repr() == old(Repr())
      ensures State() == ResumeWriter(old(State()), result)
    {
      hide StreamValues, StreamObjects, Valid, State, Repr, ConnState.RunWriter, ConnState.FailConnection;
      hide ConnState.DeadError;
      Fields();
      if writer == Ready {
        RunWriter(result);
      } else {
        var e := DeadError();
        WriterFails(e);
      }
    }

    /** The socket's 'error' and 'close' events, to the connection and then to a writer awaiting drain. */
    method OnSocketGone(reason: ConnReason)
      requires Valid()
      modifies Repr()
      ensures Valid() && Repr() == old(Repr())
      ensures State() == SocketGone(old(State()), reason)
    {
      hide StreamValues, StreamObjects, Valid, State, Repr, ConnState.FailConnection;
      FailConnection(ConnError(reason));
      Fields();
      if writer == Draining {
        SetWriter(DrainFailed);
      }
    }

    // -------------------------------------------------------------------------
    // The reader
    // -------------------------------------------------------------------------

    /** Cancels a still-open request server-side, then fails its stream. */
    method AbortStream(id: nat, e: Error) returns (error: Option<Error>)
      requires Valid() && id in streams
      modifies Repr()
      ensures Valid() && Repr() == old(Repr())
      ensures Turn(State(), error) == ConnState.AbortStream(old(State()), id, e)
    {
      hide StreamValues, StreamObjects, Valid, State, Repr, ConnState.CancelStream, StreamState.FailWith;
      CancelKeepsStreams(State(), id);
      Fields();
      error := CancelStream(id);
      Fields();
      if error.None? {
        FailStream(id, e);
      }
    }

    method DeliverBatch(id: nat, items: seq<StreamItem>)
      requires Valid() && id in streams
      modifies Repr()
      ensures Valid() && Repr() == old(Repr())
      ensures State() == SetStream(old(State()), id, DeliverAll(StreamAt(old(State()), id), items))
    {
      hide StreamValues, StreamObjects, Valid, State, Repr, StreamState.Deliver, DeliverAll;
      Fields();
      ghost var s := State();
      DeliverNone(s, id);
      assert items[..0] == [];
      for i := 0 to |items|
        invariant Valid() && Repr() == old(Repr()) && id in streams
        invariant State() == SetStream(s, id, DeliverAll(StreamAt(s, id), items[..i]))
      {
        DeliverItem(id, items[i]);
        DeliverSnoc(s, id, items[..i], items[i]);
        assert items[..i + 1] == items[..i] + [items[i]];
        Fields();
      }
      assert items[..|items|] == items;
    }

    method MapBatch(events: seq<WireSequencedEvent>) returns (r: Option<seq<StreamItem>>)
      requires Valid()
      ensures Valid() && Repr() == old(Repr()) && State() == old(State())
      ensures r == Mapped(events)
    {
      hide StreamValues, Mapped;
      r := MapEvents(events);
    }

    method RouteToRead(id: nat, k: ResponseKind) returns (error: Option<Error>)
      requires Valid() && id in streams
      modifies Repr()
      ensures Valid() && Repr() == old(Repr())
      ensures Turn(State(), error) == RouteRead(old(State()), id, k)
    {
      hide StreamValues, StreamObjects, Valid, State, Repr, ConnState.AbortStream, Finalize, Mapped, DeliverAll;
      hide StreamState.FailWith, StreamState.EndWith;
      Fields();
      FinalizeKeeps(State(), id);
      match k
      case ReadEvents(events) =>
        var mapped := MapBatch(events);
        if mapped.None? {
          error := AbortStream(id, ProtocolError(MissingEvent));
        } else {
          DeliverBatch(id, mapped.value);
          error := None;
        }
      case ReadEnd(watermark) =>
        FinalizeEntry(id);
        Fields();
        FinishRead(id, watermark);
        error := None;
      case ErrorResponse(e) =>
        FinalizeEntry(id);
        Fields();
        FailStream(id, ServerError(e));
        error := None;
      case _ => error := AbortStream(id, ProtocolError(UnexpectedKind));
    }

    method RouteToSubscription(id: nat, k: ResponseKind) returns (error: Option<Error>)
      requires Valid() && id in streams
      modifies Repr()
      ensures Valid() && Repr() == old(Repr())
      ensures Turn(State(), error) == RouteSubscribe(old(State()), id, k)
    {
      hide StreamValues, StreamObjects, Valid, State, Repr, ConnState.AbortStream, Finalize, Mapped, DeliverAll;
      hide StreamState.FailWith, StreamState.Deliver;
      Fields();
      FinalizeKeeps(State(), id);
      match k
      case ReadEvents(events) =>
        var mapped := MapBatch(events);
        if mapped.None? {
          error := AbortStream(id, ProtocolError(MissingEvent));
        } else {
          DeliverBatch(id, mapped.value);
          error := None;
        }
      case CaughtUp(watermark) =>
        DeliverItem(id, CaughtUpItem(watermark));
        error := None;
      case ErrorResponse(e) =>
        FinalizeEntry(id);
        Fields();
        FailStream(id, ServerError(e));
        error := None;
      case _ => error := AbortStream(id, ProtocolError(UnexpectedKind));
    }

    method SettleCall(id: nat, o: Settlement)
      requires Valid()
      modifies Repr()
      ensures Valid() && Repr() == old(Repr())
      ensures State() == Settle(Finalize(old(State()), id), id, o)
    {
      hide StreamValues, StreamObjects, Valid, State, Repr, Finalize, Settle;
      FinalizeEntry(id);
      SettlePromise(id, o);
    }

    ghost method RecordResponse(r: WireResponse)
      requires Valid()
      modifies Repr()
      ensures Valid() && Repr() == old(Repr())
      ensures State() == Record(old(State()), r)
    {
      hide StreamValues;
      routed := routed + [Routed(r, r.requestId in pending)];
    }

    method Decode(body: bytes) returns (r: Result<WireResponse, Varints.DecodeError>)
      requires Valid()
      ensures Valid() && Repr() == old(Repr()) && State() == old(State())
      ensures r == DecodedResponse(body)
    {
      hide StreamValues, DecodedResponse;
      r := Decoders.DecodeResponse(body);
    }

    method Dispatch(id: nat, k: ResponseKind) returns (error: Option<Error>)
      requires Valid() && id in pending
      modifies Repr()
      ensures Valid() && Repr() == old(Repr())
      ensures Turn(State(), error) == ConnState.Dispatch(old(State()), id, k)
    {
      hide StreamValues, StreamObjects, Valid, State, Repr, Finalize, Settle, RouteRead, RouteSubscribe;
      hide HelloSettlement, UnarySettlement;
      Fields();
      EntriesKnown();
      match pending[id].kind
      case HelloPending =>
        SettleCall(id, HelloSettlement(k));
        error := None;
      case UnaryPending(wants) =>
        SettleCall(id, UnarySettlement(wants, k));
        error := None;
      case ReadPending => error := RouteToRead(id, k);
      case SubscribePending => error := RouteToSubscription(id, k);
    }

    /** Decodes one body and routes the response; `error` is the exception, if it throws. */
    method Route(body: bytes) returns (error: Option<Error>)
      requires Valid()
      modifies Repr()
      ensures Valid() && Repr() == old(Repr())
      ensures Turn(State(), error) == RouteBody(old(State()), body)
    {
      hide StreamValues, StreamObjects, Valid, State, Repr, ConnState.Dispatch, ConnState.FailConnection, Record;
      hide DecodedResponse;
      var decoded := Decode(body);
      if decoded.Err? {
        return Some(BodyError(decoded.error));
      }
      var r := decoded.value;
      RecordKeeps(State(), r);
      RecordResponse(r);
      Fields();
      if r.requestId == 0 {
        if r.kind.ErrorResponse? {
          FailConnection(ConnError(Unattributed(ServerError(r.kind.error))));
        }
        return None;
      }
      if r.requestId !in pending {
        return None;
      }
      error := Dispatch(r.requestId, r.kind);
    }

    /** The decoder takes a chunk. */
    method PushChunk(chunk: bytes) returns (r: Result<seq<bytes>, FrameError>)
      requires Valid()
      modifies Repr()
      ensures Valid() && Repr() == old(Repr())
      ensures var s := old(State()); var push := PushResult(s.cfg.maxFrameLen, s.buffer, chunk);
              r == push.0 && State() == s.(buffer := push.1, received := s.received + chunk)
    {
      hide StreamValues, PushResult;
      received := received + chunk;
      r := decoder.Push(chunk);
    }

    method OnData(chunk: bytes)
      requires Valid()
      modifies Repr()
      ensures Valid() && Repr() == old(Repr())
      ensures State() == ConnState.OnData(old(State()), chunk)
    {
      hide StreamValues, StreamObjects, Valid, State, Repr, PushResult, RouteBody, RouteAll, ConnState.FailConnection;
      var frames := PushChunk(chunk);
      if frames.Err? {
        FailConnection(ConnError(FramingFailed(FrameError(frames.error))));
        return;
      }
      ghost var s := State();
      var bodies := frames.value;
      assert bodies[0..] == bodies;
      for i := 0 to |bodies|
        invariant Valid() && Repr() == old(Repr())
        invariant RouteAll(s, bodies) == RouteAll(State(), bodies[i..])
      {
        RouteAllStep(State(), bodies[i..]);
        assert bodies[i..][0] == bodies[i] && bodies[i..][1..] == bodies[i + 1..];
        var error := Route(bodies[i]);
        if error.Some? {
          FailConnection(ConnError(ProtocolFailed(error.value)));
          return;
        }
      }
      RouteAllStep(State(), bodies[|bodies|..]);
    }

    // -------------------------------------------------------------------------
    // Turns
    // -------------------------------------------------------------------------

    /** A turn the runtime can run now: a continuation whose promise is resolved, a call on something that exists. */
    predicate Runnable(ev: Event)
      reads this, inflight, queueSlots
    {
      match ev
      case AbortCall(id, reason) => id in issued && (issued[id].AppendRequest? || issued[id].StatsRequest?)
      case AbortOfStream(id, reason) => id in streams
      case CloseOfStream(id) => id in streams
      case NextOfStream(id) => id in streams
      case PermitResumes(id) => id in senders && senders[id].AwaitPermit? && id in inflight.granted
      case SlotResumes(id) => id in senders && senders[id].AwaitSlot? && id in queueSlots.granted
      case WriterResumes(result) => writer == Ready || writer == DrainFailed
      case Drained => writer == Draining
      case _ => true
    }

    lemma RunnableReady(ev: Event)
      ensures ev.AbortCall? ==> (Runnable(ev) <==> IsUnary(State(), ev.id))
      ensures ev.PermitResumes? ==> (Runnable(ev) <==> PermitReady(State(), ev.id))
      ensures ev.SlotResumes? ==> (Runnable(ev) <==> SlotReady(State(), ev.id))
    {
    }

    lemma RunnableHere(ev: Event)
      requires Runnable(ev)
      ensures (ev.AbortOfStream? || ev.CloseOfStream? || ev.NextOfStream?) ==> ev.id in streams
      ensures ev.WriterResumes? ==> writer == Ready || writer == DrainFailed
      ensures ev.Drained? ==> writer == Draining
    {
    }

    /** A turn that is not runnable is one the state machine ignores. */
    lemma NotRunnable(ev: Event)
      requires !Runnable(ev)
      ensures Step(State(), ev) == State()
    {
      hide OpenUnary, OpenOther, ConnState.CancelUnary, ConnState.EndStream;
      hide ResumePermit, ResumeSlot, SocketGone, ConnState.FailConnection, ConnState.OnData, SetStream;
      hide StreamValues, State, Repr, PermitReady, SlotReady, IsUnary, ConnState.RunWriter;
      Fields();
      RunnableReady(ev);
    }

    /** Whatever happens next, the object's state moves as the state machine says. */
    method TakeTurn(ev: Event)
      requires Valid() && Runnable(ev)
      modifies Repr()
      ensures Valid() && forall o <- Repr() :: o in old(Repr()) || fresh(o)
      ensures State() == Step(old(State()), ev)
    {
      hide StreamValues, StreamObjects, Valid, State, Repr, OpenUnary, OpenOther, ConnState.CancelUnary;
      hide ConnState.EndStream;
      hide ResumePermit, ResumeSlot, ResumeWriter, SocketGone, ConnState.FailConnection, ConnState.OnData, SetStream;
      hide PermitReady, SlotReady, IsUnary, Runnable;
      Fields();
      RunnableReady(ev);
      RunnableHere(ev);
      match ev
      case CallAppend(append, aborted) => Unary(AppendRequest(append), WantsAppend, aborted);
      case CallStats(aborted) => Unary(StatsRequest, WantsStats, aborted);
      case CallRead(read, listening) => Open(ReadPending, ReadRequest(read), listening);
      case CallSubscribe(subscribe, listening) => Open(SubscribePending, SubscribeRequest(subscribe), listening);
      case AbortCall(id, reason) => var error := CancelUnary(id, reason);
      case AbortOfStream(id, reason) => EndStream(id, Some(reason));
      case CloseOfStream(id) => EndStream(id, None);
      case NextOfStream(id) => NextAt(id);
      case PermitResumes(id) => ResumeAtPermit(id);
      case SlotResumes(id) => ResumeAtSlot(id);
      case WriterResumes(result) => ResumeAtWriter(result);
      case Drained => SetWriter(Ready);
      case SocketError => OnSocketGone(SocketFailed);
      case SocketClosed => OnSocketGone(Closed);
      case CloseConnection => FailConnection(ConnError(Closed));
      case Data(chunk) => OnData(chunk);
    }

    /** An event the runtime may or may not be ready for. */
    method Offer(ev: Event)
      requires Valid()
      modifies Repr()
      ensures Valid() && forall o <- Repr() :: o in old(Repr()) || fresh(o)
      ensures State() == Step(old(State()), ev)
    {
      hide StreamValues, StreamObjects, Valid, State, Repr, Step, Runnable;
      if Runnable(ev) {
        TakeTurn(ev);
      } else {
        NotRunnable(ev);
      }
    }

    method NextAt(id: nat)
      requires Valid() && id in streams
      modifies Repr()
      ensures Valid() && Repr() == old(Repr())
      ensures id in old(State()).streams && State() == SetStream(old(State()), id, old(State()).streams[id].Next())
    {
      hide StreamValues, StreamObjects, Valid, State, Repr, SetStream, StreamState.Next;
      Fields();
      NextItem(id);
    }
  }

  /** `connect`: the constructor, and the opening hello. */
  method Connect(config: Config, token: Option<bytes>) returns (c: Conn)
    ensures fresh(c) && c.Valid() && (forall o <- c.Repr() :: fresh(o))
    ensures c.State() == Connected(config, token)
  {
    hide OpenOther, Conn.State, Conn.StreamValues, Conn.StreamObjects, Conn.Valid, Conn.Repr;
    c := new Conn(config);
    c.Fields();
    c.Open(HelloPending, HelloRequest(WireHello(PROTOCOL_VERSION, token)), false);
  }

  /**
   * A connection, and then any events the user, the runtime and the socket produce: the object is
   * always in the state the theorems of ConnTheorems.dfy are about.
   */
  method Drive(config: Config, token: Option<bytes>, events: seq<Event>) returns (c: Conn)
    ensures fresh(c) && c.Valid() && c.State() == After(config, token, events)
  {
    hide After, Connected, Step, Conn.State, Conn.StreamValues, Conn.StreamObjects, Conn.Valid, Conn.Repr;
    c := Connect(config, token);
    FirstTurn(config, token);
    assert events[..0] == [];
    for i := 0 to |events|
      invariant c.Valid() && (forall o <- c.Repr() :: fresh(o)) && fresh(c)
      invariant c.State() == After(config, token, events[..i])
    {
      OneMore(config, token, events[..i], events[i]);
      assert events[..i + 1] == events[..i] + [events[i]];
      c.Fields();
      c.Offer(events[i]);
    }
    assert events[..|events|] == events;
  }

  lemma FirstTurn(cfg: Config, token: Option<bytes>)
    ensures After(cfg, token, []) == Connected(cfg, token)
  {
    hide Connected;
  }
}
