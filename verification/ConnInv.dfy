/**
 * What every turn keeps. Each group of the invariant is a predicate over only the fields it is about,
 * so a turn that leaves those alone keeps it at once.
 */
module ConnInv {
  import opened Base
  import opened Messages
  import opened Framing
  import opened Sync
  import opened Streams
  import opened Errors
  import opened ConnState

  // ---------------------------------------------------------------------------
  // The groups
  // ---------------------------------------------------------------------------

  predicate KindMatches(k: PendingKind, request: RequestKind) {
    match k
    case UnaryPending(wants) => if wants == WantsAppend then request.AppendRequest? else request.StatsRequest?
    case HelloPending => request.HelloRequest?
    case ReadPending => request.ReadRequest?
    case SubscribePending => request.SubscribeRequest?
  }

  predicate IsStreamRequest(request: RequestKind) {
    request.ReadRequest? || request.SubscribeRequest?
  }

  predicate IsCallRequest(request: RequestKind) {
    request.AppendRequest? || request.StatsRequest? || request.HelloRequest?
  }

  /** Ids are issued once, from one counter; an entry of the table has the promise or stream of its kind. */
  ghost predicate IdsOk(pending: map<nat, Pending>, deferreds: map<nat, seq<Settlement>>,
                        streams: map<nat, StreamState<StreamItem>>, issued: map<nat, RequestKind>, n: nat)
  {
    && (forall id :: id in pending ==> id in issued && KindMatches(pending[id].kind, issued[id]))
    && (forall id :: id in issued ==> 1 <= id <= n && (IsCallRequest(issued[id]) || IsStreamRequest(issued[id])))
    && (forall id :: id in deferreds <==> id in issued && IsCallRequest(issued[id]))
    && (forall id :: id in streams <==> id in issued && IsStreamRequest(issued[id]))
  }

  /** Exactly-once settlement of calls: pending and untouched, or gone and settled once. */
  ghost predicate SettledOk(pending: map<nat, Pending>, deferreds: map<nat, seq<Settlement>>) {
    forall id :: id in deferreds ==> |deferreds[id]| == if id in pending then 0 else 1
  }

  /** Exactly-once termination of streams: pending and open, or gone and ended. */
  ghost predicate StreamsOk(pending: map<nat, Pending>, streams: map<nat, StreamState<StreamItem>>) {
    forall id :: id in streams ==> streams[id].Valid() && (id in pending <==> !streams[id].sink.done)
  }

  /** A sender waits for exactly one thing, and no entry owns a permit its sender is still waiting for. */
  ghost predicate SendersOk(senders: map<nat, Sender>, inflight: Sem, slots: Sem, pending: map<nat, Pending>) {
    && inflight.Valid() && slots.Valid()
    && (forall t :: inflight.Holds(t) <==> t in senders && senders[t].AwaitPermit?)
    && (forall t :: slots.Holds(t) <==> t in senders && senders[t].AwaitSlot?)
    && (forall t :: t in senders && senders[t].AwaitPermit? && t in pending ==> !pending[t].permit)
  }

  /** What a sender is about to queue is the frame of what was asked. */
  ghost predicate FramesOk(senders: map<nat, Sender>, issued: map<nat, RequestKind>, max: nat) {
    forall t :: t in senders ==>
      && t in issued
      && match senders[t]
         case AwaitPermit(request) => request == issued[t]
         case AwaitSlot(frame, request) =>
           request == WireRequest(t, issued[t]) && Fits(request, max) && frame == Frame(EncodedRequest(request))
  }

  predicate Fits(r: WireRequest, max: nat) {
    |EncodedRequest(r)| <= max
  }

  /** In-flight permits are conserved: free, granted, owned by an entry, or stranded by death. */
  ghost predicate PermitsOk(max: nat, inflight: Sem, pending: map<nat, Pending>, dead: bool, stranded: nat) {
    && inflight.Available() + |PermitIds(pending)| + stranded == max
    && (if dead then PermitIds(pending) == {} else stranded == 0)
  }

  /** Queue slots are conserved while alive; death leaves nobody parked on one. */
  ghost predicate SlotsOk(depth: nat, slots: Sem, outbound: seq<bytes>, dead: bool) {
    if dead then slots.waiters == [] else slots.Available() + |outbound| == depth
  }

  /** No lost wake-up: the writer is parked only with nothing to do and no signal stored. */
  ghost predicate WriterOk(gate: GateState, writer: WriterPc, wire: Wire, dead: bool) {
    && (gate.waiting <==> writer == Parked)
    && (writer == Parked ==> !gate.signalled && !dead && wire.outbound == [] && wire.priority == [])
    && (writer == Over || writer == DrainFailed ==> dead)
  }

  ghost predicate DeadOk(dead: bool, cause: Option<Error>, pending: map<nat, Pending>, deathId: nat, n: nat) {
    && (dead <==> cause.Some?)
    && (dead ==> deathId <= n && forall id :: id in pending ==> id > deathId && !IsCall(pending[id].kind))
  }

  // ---------------------------------------------------------------------------
  // The outbound side
  // ---------------------------------------------------------------------------

  function FramesOf(requests: seq<WireRequest>): seq<bytes> {
    if requests == [] then []
    else FramesOf(requests[..|requests| - 1]) + [Frame(EncodedRequest(requests[|requests| - 1]))]
  }

  function BodiesOf(requests: seq<WireRequest>): seq<bytes> {
    if requests == [] then []
    else BodiesOf(requests[..|requests| - 1]) + [EncodedRequest(requests[|requests| - 1])]
  }

  /** The requests of one of the two queues, in order. */
  function Select(requests: seq<WireRequest>, cancels: bool): seq<WireRequest> {
    if requests == [] then []
    else
      var last := requests[|requests| - 1];
      Select(requests[..|requests| - 1], cancels) + if last.kind.CancelRequest? == cancels then [last] else []
  }

  /** One queue: everything pushed is written, or still queued, in order; only a failing write loses any. */
  ghost predicate QueueOk(pushed: seq<WireRequest>, queued: seq<bytes>, sent: seq<WireRequest>, cancels: bool,
                          max: nat, dead: bool)
  {
    && |queued| <= |pushed|
    && queued == FramesOf(LastN(pushed, |queued|))
    && (forall r <- pushed :: Fits(r, max) && r.kind.CancelRequest? == cancels)
    && Select(sent, cancels) <= pushed[..|pushed| - |queued|]
    && (!dead ==> Select(sent, cancels) == pushed[..|pushed| - |queued|])
  }

  ghost predicate WireOk(wire: Wire, max: nat, dead: bool) {
    && QueueOk(wire.ordinary, wire.outbound, wire.sent, false, max, dead)
    && QueueOk(wire.cancels, wire.priority, wire.sent, true, max, dead)
    && wire.written == Framed(BodiesOf(wire.sent))
    && (forall r <- wire.sent :: Fits(r, max))
  }

  /** Each request is queued at most once, as it was asked, by a sender that is then over. */
  ghost predicate OriginOk(ordinary: seq<WireRequest>, cancels: seq<WireRequest>, senders: map<nat, Sender>,
                           issued: map<nat, RequestKind>, n: nat)
  {
    && (forall i :: 0 <= i < |ordinary| ==>
          var r := ordinary[i];
          r.requestId in issued && r.kind == issued[r.requestId] && r.requestId !in senders)
    && (forall i, j :: 0 <= i < j < |ordinary| ==> ordinary[i].requestId != ordinary[j].requestId)
    && (forall i :: 0 <= i < |cancels| ==> cancels[i].requestId <= n && cancels[i].requestId !in issued)
    && (forall i, j :: 0 <= i < j < |cancels| ==> cancels[i].requestId < cancels[j].requestId)
  }

  ghost predicate Core(s: State) {
    && IdsOk(s.pending, s.deferreds, s.streams, s.issued, s.idCounter)
    && SettledOk(s.pending, s.deferreds)
    && StreamsOk(s.pending, s.streams)
    && SendersOk(s.senders, s.inflight, s.slots, s.pending)
    && FramesOk(s.senders, s.issued, s.cfg.maxFrameLen)
    && PermitsOk(s.cfg.maxInflight, s.inflight, s.pending, s.dead, s.stranded)
    && SlotsOk(s.cfg.queueDepth, s.slots, s.wire.outbound, s.dead)
    && WriterOk(s.gate, s.writer, s.wire, s.dead)
    && DeadOk(s.dead, s.cause, s.pending, s.deathId, s.idCounter)
    && WireOk(s.wire, s.cfg.maxFrameLen, s.dead)
    && OriginOk(s.wire.ordinary, s.wire.cancels, s.senders, s.issued, s.idCounter)
  }

  lemma InitCore(cfg: Config)
    ensures Core(Init(cfg))
  {
  }

  // ---------------------------------------------------------------------------
  // Finalising an entry together with settling it
  // ---------------------------------------------------------------------------

  lemma PermitIdsRemove(pending: map<nat, Pending>, id: nat)
    requires id in pending
    ensures PermitIds(pending - {id}) == PermitIds(pending) - {id}
    ensures |PermitIds(pending - {id})| == |PermitIds(pending)| - if pending[id].permit then 1 else 0
  {
    assert PermitIds(pending - {id}) == PermitIds(pending) - {id};
  }

  /** Finalising gives back the entry's permit, if it owned one. */
  lemma FinalizePermits(s: State, id: nat)
    requires id in s.pending
    requires SendersOk(s.senders, s.inflight, s.slots, s.pending)
    requires PermitsOk(s.cfg.maxInflight, s.inflight, s.pending, s.dead, s.stranded)
    ensures var t := Finalize(s, id);
            && t == s.(pending := s.pending - {id}, inflight := t.inflight)
            && SendersOk(t.senders, t.inflight, t.slots, t.pending)
            && PermitsOk(t.cfg.maxInflight, t.inflight, t.pending, t.dead, t.stranded)
  {
    PermitIdsRemove(s.pending, id);
    ReleaseValid(s.inflight);
  }

  /** Replacing promises or streams, and possibly dropping one entry, keeps the ids in order. */
  lemma IdsKept(pending: map<nat, Pending>, deferreds: map<nat, seq<Settlement>>,
                streams: map<nat, StreamState<StreamItem>>, issued: map<nat, RequestKind>, n: nat,
                pending': map<nat, Pending>, deferreds': map<nat, seq<Settlement>>,
                streams': map<nat, StreamState<StreamItem>>)
    requires IdsOk(pending, deferreds, streams, issued, n)
    requires forall id :: id in pending' ==> id in pending && pending'[id].kind == pending[id].kind
    requires deferreds'.Keys == deferreds.Keys && streams'.Keys == streams.Keys
    ensures IdsOk(pending', deferreds', streams', issued, n)
  {
  }

  lemma PromiseSettled(pending: map<nat, Pending>, deferreds: map<nat, seq<Settlement>>,
                       streams: map<nat, StreamState<StreamItem>>, id: nat, o: Settlement)
    requires SettledOk(pending, deferreds) && StreamsOk(pending, streams)
    requires id in pending && id in deferreds && id !in streams
    ensures SettledOk(pending - {id}, deferreds[id := deferreds[id] + [o]]) && StreamsOk(pending - {id}, streams)
  {
  }

  lemma StreamEnded(pending: map<nat, Pending>, deferreds: map<nat, seq<Settlement>>,
                    streams: map<nat, StreamState<StreamItem>>, id: nat, st: StreamState<StreamItem>)
    requires SettledOk(pending, deferreds) && StreamsOk(pending, streams)
    requires id in pending && id in streams && id !in deferreds && st.Valid() && st.sink.done
    ensures SettledOk(pending - {id}, deferreds) && StreamsOk(pending - {id}, streams[id := st])
  {
  }

  lemma DeadDropped(dead: bool, cause: Option<Error>, pending: map<nat, Pending>, deathId: nat, n: nat, id: nat)
    requires DeadOk(dead, cause, pending, deathId, n)
    ensures DeadOk(dead, cause, pending - {id}, deathId, n)
  {
  }

  /** The id of an entry is that of a promise or of a stream, by the entry's type. */
  lemma EntryKnown(s: State, id: nat)
    requires IdsOk(s.pending, s.deferreds, s.streams, s.issued, s.idCounter) && id in s.pending
    ensures if IsCall(s.pending[id].kind) then id in s.deferreds && id !in s.streams
            else id in s.streams && id !in s.deferreds
  {
  }

  lemma SettleCore(s: State, id: nat, o: Settlement)
    requires Core(s) && id in s.pending && IsCall(s.pending[id].kind)
    ensures Core(Settle(Finalize(s, id), id, o))
  {
    hide PermitsOk, SendersOk, WireOk, OriginOk, FramesOk, SlotsOk, WriterOk, Finalize, IdsOk, SettledOk, StreamsOk;
    hide DeadOk;
    EntryKnown(s, id);
    FinalizePermits(s, id);
    PromiseSettled(s.pending, s.deferreds, s.streams, id, o);
    DeadDropped(s.dead, s.cause, s.pending, s.deathId, s.idCounter, id);
    var t := Settle(Finalize(s, id), id, o);
    IdsKept(s.pending, s.deferreds, s.streams, s.issued, s.idCounter, t.pending, t.deferreds, t.streams);
  }

  lemma CloseStreamCore(s: State, id: nat, st: StreamState<StreamItem>)
    requires Core(s) && id in s.pending && !IsCall(s.pending[id].kind)
    requires st.Valid() && st.sink.done
    ensures Core(SetStream(Finalize(s, id), id, st))
  {
    hide PermitsOk, SendersOk, WireOk, OriginOk, FramesOk, SlotsOk, WriterOk, Finalize, IdsOk, SettledOk, StreamsOk;
    hide DeadOk;
    EntryKnown(s, id);
    FinalizePermits(s, id);
    StreamEnded(s.pending, s.deferreds, s.streams, id, st);
    DeadDropped(s.dead, s.cause, s.pending, s.deathId, s.idCounter, id);
    var t := SetStream(Finalize(s, id), id, st);
    IdsKept(s.pending, s.deferreds, s.streams, s.issued, s.idCounter, t.pending, t.deferreds, t.streams);
  }

  /** A change of a stream that neither opens nor ends its sink. */
  lemma SetStreamCore(s: State, id: nat, st: StreamState<StreamItem>)
    requires Core(s) && id in s.streams
    requires st.Valid() && st.sink.done == s.streams[id].sink.done
    ensures Core(SetStream(s, id, st))
  {
    hide PermitsOk, SendersOk, WireOk, OriginOk, FramesOk, SlotsOk, WriterOk, DeadOk, SettledOk, IdsOk;
    var t := SetStream(s, id, st);
    IdsKept(s.pending, s.deferreds, s.streams, s.issued, s.idCounter, t.pending, t.deferreds, t.streams);
  }

  lemma FailEntryCore(s: State, id: nat, e: Error)
    requires Core(s)
    ensures Core(FailEntry(s, id, e))
  {
    hide PermitsOk, SendersOk, WireOk, OriginOk, FramesOk, SlotsOk, WriterOk, DeadOk, SettledOk;
    if id in s.pending {
      if IsCall(s.pending[id].kind) {
        SettleCore(s, id, Rejected(e));
      } else {
        CloseStreamCore(s, id, StreamAt(s, id).FailWith(e));
      }
    }
  }

  lemma SignalCore(s: State)
    requires (s.gate.waiting <==> s.writer == Parked) && (s.writer == Over || s.writer == DrainFailed ==> s.dead)
    ensures var t := Signal(s); WriterOk(t.gate, t.writer, t.wire, t.dead)
    ensures Signal(s) == s.(gate := Signal(s).gate, writer := Signal(s).writer)
    ensures Signal(s).writer != Parked
  {
  }

  // ---------------------------------------------------------------------------
  // The outbound queues
  // ---------------------------------------------------------------------------

  lemma FramesSnoc(requests: seq<WireRequest>, r: WireRequest)
    ensures FramesOf(requests + [r]) == FramesOf(requests) + [Frame(EncodedRequest(r))]
    ensures BodiesOf(requests + [r]) == BodiesOf(requests) + [EncodedRequest(r)]
  {
    assert (requests + [r])[..|requests|] == requests;
  }

  lemma FramesNone()
    ensures FramesOf([]) == [] && BodiesOf([]) == []
  {
  }

  lemma {:induction false} FramesConcat(a: seq<WireRequest>, b: seq<WireRequest>)
    ensures FramesOf(a + b) == FramesOf(a) + FramesOf(b)
    ensures BodiesOf(a + b) == BodiesOf(a) + BodiesOf(b)
  {
    hide FramesOf, BodiesOf, Frame, EncodedRequest;
    if b == [] {
      FramesNone();
      assert a + b == a && FramesOf(a) + [] == FramesOf(a) && BodiesOf(a) + [] == BodiesOf(a);
    } else {
      var init, last := b[..|b| - 1], b[|b| - 1];
      FramesConcat(a, init);
      assert a + b == a + init + [last] && b == init + [last];
      FramesSnoc(a + init, last);
      FramesSnoc(init, last);
      assert FramesOf(a) + (FramesOf(init) + [Frame(EncodedRequest(last))])
             == FramesOf(a) + FramesOf(init) + [Frame(EncodedRequest(last))];
      assert BodiesOf(a) + (BodiesOf(init) + [EncodedRequest(last)])
          == BodiesOf(a) + BodiesOf(init) + [EncodedRequest(last)];
    }
  }

  lemma {:induction false} FramesFlatten(requests: seq<WireRequest>)
    ensures Flatten(FramesOf(requests)) == Framed(BodiesOf(requests))
  {
    if requests != [] {
      var init, last := requests[..|requests| - 1], EncodedRequest(requests[|requests| - 1]);
      FramesFlatten(init);
      FlattenSnoc(FramesOf(init), Frame(last));
      FramedConcat(BodiesOf(init), [last]);
      assert Framed([last]) == Frame(last) + Framed([]) == Frame(last);
    }
  }

  lemma {:induction false} SelectConcat(a: seq<WireRequest>, b: seq<WireRequest>, cancels: bool)
    ensures Select(a + b, cancels) == Select(a, cancels) + Select(b, cancels)
  {
    if b == [] {
      assert a + b == a;
    } else {
      var init, last := b[..|b| - 1], b[|b| - 1];
      SelectConcat(a, init, cancels);
      assert (a + b)[..|a + b| - 1] == a + init;
      var tail := if last.kind.CancelRequest? == cancels then [last] else [];
      assert Select(a, cancels) + (Select(init, cancels) + tail) == Select(a, cancels) + Select(init, cancels) + tail;
    }
  }

  lemma {:induction false} SelectUniform(requests: seq<WireRequest>, kind: bool, cancels: bool)
    requires forall r <- requests :: r.kind.CancelRequest? == kind
    ensures Select(requests, cancels) == if kind == cancels then requests else []
  {
    if requests != [] {
      var init := requests[..|requests| - 1];
      SelectUniform(init, kind, cancels);
      assert requests == init + [requests[|requests| - 1]];
    }
  }

  /** Queueing one more request. */
  lemma QueuePush(pushed: seq<WireRequest>, queued: seq<bytes>, sent: seq<WireRequest>, cancels: bool,
                  max: nat, dead: bool, r: WireRequest)
    requires QueueOk(pushed, queued, sent, cancels, max, dead)
    requires Fits(r, max) && r.kind.CancelRequest? == cancels
    ensures QueueOk(pushed + [r], queued + [Frame(EncodedRequest(r))], sent, cancels, max, dead)
  {
    hide FramesOf, Frame, EncodedRequest, Fits, Select, LastN;
    FramesSnoc(LastN(pushed, |queued|), r);
    LastNSnoc(pushed, r, |queued|);
  }

  lemma LastNSnoc<T>(xs: seq<T>, x: T, n: nat)
    requires n <= |xs|
    ensures LastN(xs + [x], n + 1) == LastN(xs, n) + [x]
    ensures (xs + [x])[..|xs + [x]| - (n + 1)] == xs[..|xs| - n]
  {
  }

  /** Emptying a queue into the requests written. */
  lemma QueueTake(pushed: seq<WireRequest>, queued: seq<bytes>, sent: seq<WireRequest>, cancels: bool, max: nat,
                  sent': seq<WireRequest>)
    requires QueueOk(pushed, queued, sent, cancels, max, false)
    requires Select(sent', cancels) == Select(sent, cancels) + LastN(pushed, |queued|)
    ensures QueueOk(pushed, [], sent', cancels, max, false)
  {
    assert LastN(pushed, 0) == [];
    assert pushed[..|pushed| - |queued|] + LastN(pushed, |queued|) == pushed;
    assert pushed[..|pushed|] == pushed;
  }

  /** Death, with or without the loss of what a failing write had taken. */
  lemma QueueDies(pushed: seq<WireRequest>, queued: seq<bytes>, sent: seq<WireRequest>, cancels: bool, max: nat,
                  dead: bool)
    requires QueueOk(pushed, queued, sent, cancels, max, dead)
    ensures QueueOk(pushed, queued, sent, cancels, max, true)
    ensures QueueOk(pushed, [], sent, cancels, max, true)
  {
    assert LastN(pushed, 0) == [];
    assert pushed[..|pushed| - |queued|] <= pushed[..|pushed|];
  }

  /** What a queue holds: the frames of its last requests, all of its kind and size. */
  lemma QueueHolds(pushed: seq<WireRequest>, queued: seq<bytes>, sent: seq<WireRequest>, cancels: bool, max: nat,
                   dead: bool)
    requires QueueOk(pushed, queued, sent, cancels, max, dead)
    ensures queued == FramesOf(LastN(pushed, |queued|))
    ensures forall r <- LastN(pushed, |queued|) :: Fits(r, max) && r.kind.CancelRequest? == cancels
  {
    hide FramesOf, Fits, Select;
    assert forall r <- LastN(pushed, |queued|) :: r in pushed;
  }

  lemma BatchSelects(w: Wire, max: nat, cancels: bool)
    requires WireOk(w, max, false)
    ensures Select(w.sent + Batch(w), cancels)
            == Select(w.sent, cancels) + if cancels then LastN(w.cancels, |w.priority|)
                else LastN(w.ordinary, |w.outbound|)
  {
    hide QueueOk, FramesOf, BodiesOf, Framed, Select, LastN;
    var cs, os := LastN(w.cancels, |w.priority|), LastN(w.ordinary, |w.outbound|);
    QueueHolds(w.ordinary, w.outbound, w.sent, false, max, false);
    QueueHolds(w.cancels, w.priority, w.sent, true, max, false);
    SelectConcat(w.sent, Batch(w), cancels);
    SelectConcat(cs, os, cancels);
    SelectUniform(cs, true, cancels);
    SelectUniform(os, false, cancels);
    assert cs + [] == cs && [] + os == os;
  }

  /** One write: the batch's frames are appended, cancels first, each queue in order. */
  lemma WriteBatch(w: Wire, max: nat)
    requires WireOk(w, max, false)
    ensures WireOk(w.(priority := [], outbound := [], written := w.written + Flatten(w.priority + w.outbound),
                      sent := w.sent + Batch(w)), max, false)
  {
    hide Fits, FramesOf, BodiesOf, Framed, Flatten, Select, QueueOk, LastN;
    var cs, os := LastN(w.cancels, |w.priority|), LastN(w.ordinary, |w.outbound|);
    QueueHolds(w.ordinary, w.outbound, w.sent, false, max, false);
    QueueHolds(w.cancels, w.priority, w.sent, true, max, false);
    BatchSelects(w, max, true);
    BatchSelects(w, max, false);
    QueueTake(w.ordinary, w.outbound, w.sent, false, max, w.sent + Batch(w));
    QueueTake(w.cancels, w.priority, w.sent, true, max, w.sent + Batch(w));
    FramesConcat(cs, os);
    FramesFlatten(Batch(w));
    FramesConcat(w.sent, Batch(w));
    FramedConcat(BodiesOf(w.sent), BodiesOf(Batch(w)));
  }

  // ---------------------------------------------------------------------------
  // Cancelling, death, opening
  // ---------------------------------------------------------------------------

  lemma OriginCancel(ordinary: seq<WireRequest>, cancels: seq<WireRequest>, senders: map<nat, Sender>,
                     issued: map<nat, RequestKind>, n: nat, r: WireRequest)
    requires OriginOk(ordinary, cancels, senders, issued, n) && r.requestId == n + 1
    requires forall id :: id in issued ==> id <= n
    ensures OriginOk(ordinary, cancels + [r], senders, issued, n + 1)
  {
  }

  lemma SendCancelCore(s: State, target: nat)
    requires Core(s)
    ensures Core(SendCancel(s, target).state)
  {
    hide PermitsOk, SendersOk, FramesOk, SettledOk, StreamsOk, QueueOk, OriginOk, SlotsOk;
    hide Signal, EncodedRequest, Frame;
    var request := WireRequest(s.idCounter + 1, CancelRequest(target));
    SignalCore(s);
    OriginLater(s.wire.ordinary, s.wire.cancels, s.senders, s.issued, s.idCounter, s.idCounter + 1);
    if !s.dead && Fits(request, s.cfg.maxFrameLen) {
      QueuePush(s.wire.cancels, s.wire.priority, s.wire.sent, true, s.cfg.maxFrameLen, s.dead, request);
      OriginCancel(s.wire.ordinary, s.wire.cancels, s.senders, s.issued, s.idCounter, request);
    }
  }

  lemma OriginLater(ordinary: seq<WireRequest>, cancels: seq<WireRequest>, senders: map<nat, Sender>,
                    issued: map<nat, RequestKind>, n: nat, n': nat)
    requires OriginOk(ordinary, cancels, senders, issued, n) && n <= n'
    ensures OriginOk(ordinary, cancels, senders, issued, n')
  {
  }

  lemma FinalizeKeeps(s: State, id: nat)
    ensures var t := Finalize(s, id); t == s.(pending := s.pending - {id}, inflight := t.inflight)
  {
  }

  /** Cancelling a stream and ending its sink is one step; if the cancel throws, the entry stays. */
  lemma CancelStreamCore(s: State, id: nat, st: StreamState<StreamItem>)
    requires Core(s) && id in s.streams && st.Valid() && st.sink.done
    ensures var t := CancelStream(s, id);
            if t.error.None? then Core(SetStream(t.state, id, st)) else Core(t.state)
    ensures var t := CancelStream(s, id).state; t.streams == s.streams && t.routed == s.routed && t.dead == s.dead
  {
    hide PermitsOk, SendersOk, WireOk, OriginOk, FramesOk, SlotsOk, WriterOk, DeadOk, SettledOk, SendCancel, Finalize;
    if id in s.pending {
      SendCancelCore(s, id);
      SendCancelKeeps(s, id);
      var t := SendCancel(s, id);
      if t.error.None? {
        FinalizeKeeps(t.state, id);
        CloseStreamCore(t.state, id, st);
      }
    } else {
      SetStreamCore(s, id, st);
    }
  }

  lemma CancelUnaryCore(s: State, id: nat, e: Error)
    requires Core(s) && IsUnary(s, id)
    ensures Core(CancelUnary(s, id, e).state)
  {
    hide PermitsOk, SendersOk, WireOk, OriginOk, FramesOk, SlotsOk, WriterOk, DeadOk, SettledOk, StreamsOk;
    hide SendCancel, Finalize;
    if id in s.pending {
      SendCancelCore(s, id);
      SendCancelKeeps(s, id);
      var t := SendCancel(s, id);
      if t.error.None? {
        SettleCore(t.state, id, Rejected(e));
      }
    }
  }

  lemma EndStreamCore(s: State, id: nat, aborted: Option<Error>)
    requires Core(s) && id in s.streams
    ensures Core(EndStream(s, id, aborted))
  {
    hide PermitsOk, SendersOk, WireOk, OriginOk, FramesOk, SlotsOk, WriterOk, DeadOk, SettledOk, IdsOk, CancelStream;
    var st := s.streams[id];
    if !st.closed {
      var s1 := SetStream(s, id, st.StartCancel());
      SetStreamCore(s, id, st.StartCancel());
      var sink := if aborted.Some? then st.sink.Fail(aborted.value) else st.sink.Finish();
      CancelStreamCore(s1, id, st.StartCancel().(sink := sink));
    }
  }

  // ---------------------------------------------------------------------------
  // Death
  // ---------------------------------------------------------------------------

  lemma WireDies(w: Wire, max: nat, dead: bool)
    requires WireOk(w, max, dead)
    ensures WireOk(w, max, true) && WireOk(w.(outbound := [], priority := []), max, true)
  {
    hide QueueOk, BodiesOf, Framed, Fits, Select;
    QueueDies(w.ordinary, w.outbound, w.sent, false, max, dead);
    QueueDies(w.cancels, w.priority, w.sent, true, max, dead);
  }

  lemma FailWithEnds(st: StreamState<StreamItem>, e: Error)
    requires st.Valid()
    ensures st.FailWith(e).Valid() && st.FailWith(e).sink.done
  {
  }

  /** Every entry of the table is told, so with the table empty everything is settled. */
  lemma FailedTables(s: State, e: Error)
    requires IdsOk(s.pending, s.deferreds, s.streams, s.issued, s.idCounter)
    requires SettledOk(s.pending, s.deferreds) && StreamsOk(s.pending, s.streams)
    ensures SettledOk(map[], FailedDeferreds(s, e)) && StreamsOk(map[], FailedStreams(s, e))
  {
    forall id | id in s.streams
      ensures FailedStreams(s, e)[id].Valid() && FailedStreams(s, e)[id].sink.done
    {
      FailWithEnds(s.streams[id], e);
    }
  }

  lemma DrainSlots(s: State)
    requires SendersOk(s.senders, s.inflight, s.slots, s.pending)
    ensures SendersOk(s.senders, s.inflight, s.slots.Drain(), map[]) && s.slots.Drain().waiters == []
  {
    DrainValid(s.slots);
  }

  /** The groups that do not involve the queues or the writer. */
  ghost predicate Table(s: State) {
    && IdsOk(s.pending, s.deferreds, s.streams, s.issued, s.idCounter)
    && SettledOk(s.pending, s.deferreds)
    && StreamsOk(s.pending, s.streams)
    && SendersOk(s.senders, s.inflight, s.slots, s.pending)
    && FramesOk(s.senders, s.issued, s.cfg.maxFrameLen)
    && PermitsOk(s.cfg.maxInflight, s.inflight, s.pending, s.dead, s.stranded)
    && OriginOk(s.wire.ordinary, s.wire.cancels, s.senders, s.issued, s.idCounter)
  }

  /** Death may come while the writer has the queues' contents in hand. */
  lemma Dies(s: State, e: Error)
    requires Table(s) && !s.dead
    requires WireOk(s.wire, s.cfg.maxFrameLen, true) && (s.gate.waiting <==> s.writer == Parked)
    ensures Core(FailConnection(s, e))
  {
    hide WireOk, OriginOk, FramesOk, IdsOk, SettledOk, StreamsOk, SendersOk, FailedDeferreds, FailedStreams;
    FailedTables(s, e);
    FailedIds(s, e);
    DrainSlots(s);
    assert PermitIds(map[]) == {};
  }

  lemma FailedIds(s: State, e: Error)
    requires IdsOk(s.pending, s.deferreds, s.streams, s.issued, s.idCounter)
    ensures IdsOk(map[], FailedDeferreds(s, e), FailedStreams(s, e), s.issued, s.idCounter)
  {
    hide IdsOk;
    assert FailedDeferreds(s, e).Keys == s.deferreds.Keys && FailedStreams(s, e).Keys == s.streams.Keys;
    IdsKept(s.pending, s.deferreds, s.streams, s.issued, s.idCounter, map[], FailedDeferreds(s, e),
            FailedStreams(s, e));
  }

  lemma FailConnectionCore(s: State, e: Error)
    requires Core(s)
    ensures Core(FailConnection(s, e))
  {
    hide WireOk, OriginOk, FramesOk, IdsOk, SettledOk, StreamsOk, SendersOk, PermitsOk, SlotsOk, FailedDeferreds;
    hide FailedStreams;
    if !s.dead {
      WireDies(s.wire, s.cfg.maxFrameLen, s.dead);
      Dies(s, e);
    }
  }

  // ---------------------------------------------------------------------------
  // Opening requests
  // ---------------------------------------------------------------------------

  lemma IdsGrow(pending: map<nat, Pending>, deferreds: map<nat, seq<Settlement>>,
                streams: map<nat, StreamState<StreamItem>>, issued: map<nat, RequestKind>, n: nat,
                kind: PendingKind, request: RequestKind, st: StreamState<StreamItem>)
    requires IdsOk(pending, deferreds, streams, issued, n) && KindMatches(kind, request)
    ensures n + 1 !in pending && n + 1 !in issued && n + 1 !in deferreds && n + 1 !in streams
    ensures IdsOk(pending[n + 1 := Pending(kind, false)], if IsCall(kind) then deferreds[n + 1 := []] else deferreds,
                  if IsCall(kind) then streams else streams[n + 1 := st], issued[n + 1 := request], n + 1)
  {
  }

  lemma TablesGrow(pending: map<nat, Pending>, deferreds: map<nat, seq<Settlement>>,
                   streams: map<nat, StreamState<StreamItem>>, id: nat, p: Pending, listening: bool)
    requires SettledOk(pending, deferreds) && StreamsOk(pending, streams)
    requires id !in deferreds && id !in streams
    ensures SettledOk(pending[id := p], deferreds) && SettledOk(pending[id := p], deferreds[id := []])
    ensures StreamsOk(pending[id := p], streams) && StreamsOk(pending[id := p], streams[id := NewStream(listening)])
  {
  }

  lemma OriginGrow(ordinary: seq<WireRequest>, cancels: seq<WireRequest>, senders: map<nat, Sender>,
                   issued: map<nat, RequestKind>, n: nat, request: RequestKind)
    requires OriginOk(ordinary, cancels, senders, issued, n) && n + 1 !in issued
    ensures OriginOk(ordinary, cancels, senders, issued[n + 1 := request], n + 1)
    ensures forall i :: 0 <= i < |ordinary| ==> ordinary[i].requestId != n + 1
  {
  }

  lemma FramesGrow(senders: map<nat, Sender>, issued: map<nat, RequestKind>, max: nat, id: nat, request: RequestKind)
    requires FramesOk(senders, issued, max) && id !in issued
    ensures FramesOk(senders, issued[id := request], max) && id !in senders
  {
    hide EncodedRequest, Frame, Fits;
  }

  lemma RegisterCore(s: State, kind: PendingKind, request: RequestKind, listening: bool)
    requires Core(s) && KindMatches(kind, request) && (s.dead ==> !IsCall(kind))
    ensures Core(Register(s, kind, request, listening))
    ensures Unstarted(Register(s, kind, request, listening), s.idCounter + 1)
  {
    hide FramesOk, WireOk, OriginOk, IdsOk, SettledOk, StreamsOk, KindMatches;
    var id := s.idCounter + 1;
    var t := Register(s, kind, request, listening);
    IdsGrow(s.pending, s.deferreds, s.streams, s.issued, s.idCounter, kind, request, NewStream(listening));
    TablesGrow(s.pending, s.deferreds, s.streams, id, Pending(kind, false), listening);
    OriginGrow(s.wire.ordinary, s.wire.cancels, s.senders, s.issued, s.idCounter, request);
    FramesGrow(s.senders, s.issued, s.cfg.maxFrameLen, id, request);
    assert PermitIds(t.pending) == PermitIds(s.pending);
  }

  /** A request whose sender has not been started and has queued nothing. */
  ghost predicate Unstarted(s: State, id: nat) {
    && id in s.issued && id !in s.senders
    && (id in s.pending ==> !s.pending[id].permit)
    && (forall i :: 0 <= i < |s.wire.ordinary| ==> s.wire.ordinary[i].requestId != id)
  }

  lemma StartSenderCore(s: State, id: nat)
    requires Core(s) && Unstarted(s, id)
    ensures Core(StartSender(s, id, s.issued[id]))
  {
    hide IdsOk, WireOk, SlotsOk, WriterOk, DeadOk, SettledOk, StreamsOk, FramesOk, OriginOk, SendersOk;
    SenderFrames(s.senders, s.issued, s.cfg.maxFrameLen, id);
    SenderOrigin(s.wire.ordinary, s.wire.cancels, s.senders, s.issued, s.idCounter, id, AwaitPermit(s.issued[id]));
    SenderParks(s.senders, s.inflight, s.slots, s.pending, id, AwaitPermit(s.issued[id]));
  }

  /** A new wait begins: on the in-flight budget or on the queue slots. */
  lemma SenderParks(senders: map<nat, Sender>, inflight: Sem, slots: Sem, pending: map<nat, Pending>, id: nat,
                    sender: Sender)
    requires SendersOk(senders, inflight, slots, pending) && id !in senders
    requires sender.AwaitPermit? && id in pending ==> !pending[id].permit
    ensures sender.AwaitPermit? ==>
              SendersOk(senders[id := sender], inflight.Acquire(id), slots, pending)
              && inflight.Acquire(id).Available() == inflight.Available()
    ensures sender.AwaitSlot? ==>
              SendersOk(senders[id := sender], inflight, slots.Acquire(id), pending)
              && slots.Acquire(id).Available() == slots.Available()
  {
    hide Sem.Acquire, Sem.Available, Sem.Valid, Sem.Holds;
    if sender.AwaitPermit? {
      assert !inflight.Holds(id);
      AcquireValid(inflight, id);
    } else {
      assert !slots.Holds(id);
      AcquireValid(slots, id);
    }
  }

  lemma SenderFrames(senders: map<nat, Sender>, issued: map<nat, RequestKind>, max: nat, id: nat)
    requires FramesOk(senders, issued, max) && id in issued
    ensures FramesOk(senders[id := AwaitPermit(issued[id])], issued, max)
  {
    hide EncodedRequest, Frame, Fits;
  }

  lemma SenderOrigin(ordinary: seq<WireRequest>, cancels: seq<WireRequest>, senders: map<nat, Sender>,
                     issued: map<nat, RequestKind>, n: nat, id: nat, sender: Sender)
    requires OriginOk(ordinary, cancels, senders, issued, n)
    requires forall i :: 0 <= i < |ordinary| ==> ordinary[i].requestId != id
    ensures OriginOk(ordinary, cancels, senders[id := sender], issued, n)
  {
  }

  lemma CancelUnaryKeeps(s: State, id: nat, e: Error)
    requires id in s.pending && !s.pending[id].permit
    ensures var t := CancelUnary(s, id, e).state;
            && t.issued == s.issued && t.senders == s.senders && t.wire.ordinary == s.wire.ordinary
            && (t.pending == s.pending || t.pending == s.pending - {id})
  {
    hide EncodedRequest, Frame, Signal, Finalize, SendCancel;
    SendCancelKeeps(s, id);
    FinalizeKeeps(SendCancel(s, id).state, id);
  }

  lemma SendCancelKeeps(s: State, target: nat)
    ensures var t := SendCancel(s, target).state;
            t == s.(idCounter := t.idCounter, wire := t.wire, gate := t.gate, writer := t.writer)
            && t.wire.outbound == s.wire.outbound && t.wire.ordinary == s.wire.ordinary
            && t.wire.written == s.wire.written && t.wire.sent == s.wire.sent
  {
    hide EncodedRequest, Frame, Signal;
  }

  lemma OpenUnaryCore(s: State, request: RequestKind, wants: Wanted, aborted: Option<Error>)
    requires Core(s) && KindMatches(UnaryPending(wants), request)
    ensures Core(OpenUnary(s, request, wants, aborted))
  {
    hide IdsOk, WireOk, SlotsOk, WriterOk, DeadOk, SettledOk, StreamsOk, SendersOk, FramesOk, OriginOk, PermitsOk;
    hide CancelUnary;
    if !s.dead {
      var id, s1 := s.idCounter + 1, Register(s, UnaryPending(wants), request, false);
      RegisterCore(s, UnaryPending(wants), request, false);
      if aborted.None? {
        StartSenderCore(s1, id);
      } else {
        CancelUnaryCore(s1, id, aborted.value);
        CancelUnaryKeeps(s1, id, aborted.value);
        var t := CancelUnary(s1, id, aborted.value);
        if t.error.None? {
          StartSenderCore(t.state, id);
        }
      }
    }
  }

  lemma OpenOtherCore(s: State, kind: PendingKind, request: RequestKind, listening: bool)
    requires Core(s) && KindMatches(kind, request) && (s.dead ==> !IsCall(kind))
    ensures Core(OpenOther(s, kind, request, listening))
  {
    hide IdsOk, WireOk, SlotsOk, WriterOk, DeadOk, SettledOk, StreamsOk, SendersOk, FramesOk, OriginOk, PermitsOk;
    RegisterCore(s, kind, request, listening);
    StartSenderCore(Register(s, kind, request, listening), s.idCounter + 1);
  }

  // ---------------------------------------------------------------------------
  // Senders resuming
  // ---------------------------------------------------------------------------

  /** A wait ends: the ticket is picked up, and possibly released again at once. */
  lemma SenderWakes(senders: map<nat, Sender>, inflight: Sem, slots: Sem, pending: map<nat, Pending>, id: nat)
    requires SendersOk(senders, inflight, slots, pending) && id in senders
    ensures senders[id].AwaitPermit? && id in inflight.granted ==>
              && SendersOk(senders - {id}, inflight.Resume(id), slots, pending)
              && SendersOk(senders - {id}, inflight.Resume(id).Release(), slots, pending)
              && inflight.Resume(id).Available() == inflight.Available() - 1
              && inflight.Resume(id).Release().Available() == inflight.Available()
    ensures senders[id].AwaitSlot? && id in slots.granted ==>
              && SendersOk(senders - {id}, inflight, slots.Resume(id), pending)
              && SendersOk(senders - {id}, inflight, slots.Resume(id).Release(), pending)
              && slots.Resume(id).Available() == slots.Available() - 1
  {
    hide Sem.Resume, Sem.Release, Sem.Available, Sem.Valid, Sem.Holds;
    if senders[id].AwaitPermit? && id in inflight.granted {
      ResumeValid(inflight, id);
      ReleaseValid(inflight.Resume(id));
    } else if senders[id].AwaitSlot? && id in slots.granted {
      ResumeValid(slots, id);
      ReleaseValid(slots.Resume(id));
    }
  }

  lemma SenderGone(senders: map<nat, Sender>, ordinary: seq<WireRequest>, cancels: seq<WireRequest>,
                   issued: map<nat, RequestKind>, max: nat, n: nat, id: nat)
    requires FramesOk(senders, issued, max) && OriginOk(ordinary, cancels, senders, issued, n) && id in senders
    ensures FramesOk(senders - {id}, issued, max) && OriginOk(ordinary, cancels, senders - {id}, issued, n)
    ensures id in issued && forall i :: 0 <= i < |ordinary| ==> ordinary[i].requestId != id
  {
    hide EncodedRequest, Frame, Fits;
  }

  /** The sender gives its permit back and ends. */
  function Abandon(s: State, id: nat): State {
    s.(inflight := s.inflight.Resume(id).Release(), senders := s.senders - {id})
  }

  lemma AbandonCore(s: State, id: nat)
    requires Core(s) && PermitReady(s, id)
    ensures Core(Abandon(s, id))
  {
    hide IdsOk, WireOk, SlotsOk, WriterOk, DeadOk, SettledOk, StreamsOk, FramesOk, OriginOk, SendersOk;
    SenderWakes(s.senders, s.inflight, s.slots, s.pending, id);
    SenderGone(s.senders, s.wire.ordinary, s.wire.cancels, s.issued, s.cfg.maxFrameLen, s.idCounter, id);
  }

  /** The sender hands its permit to its entry. */
  function TakePermit(s: State, id: nat): State
    requires id in s.pending
  {
    s.(inflight := s.inflight.Resume(id), pending := s.pending[id := s.pending[id].(permit := true)],
       senders := s.senders - {id})
  }

  lemma TakePermitCore(s: State, id: nat)
    requires Core(s) && PermitReady(s, id) && id in s.pending && !s.dead
    ensures Core(TakePermit(s, id))
  {
    hide WireOk, SlotsOk, WriterOk, FramesOk, OriginOk, StreamsOk, SettledOk, IdsOk;
    var t := TakePermit(s, id);
    assert PermitIds(t.pending) == PermitIds(s.pending) + {id};
    assert |PermitIds(t.pending)| == |PermitIds(s.pending)| + 1;
    SenderWakes(s.senders, s.inflight, s.slots, s.pending, id);
    SenderGone(s.senders, s.wire.ordinary, s.wire.cancels, s.issued, s.cfg.maxFrameLen, s.idCounter, id);
    IdsKept(s.pending, s.deferreds, s.streams, s.issued, s.idCounter, t.pending, t.deferreds, t.streams);
    SameKeys(s.pending, t.pending, s.deferreds, s.streams);
  }

  lemma SameKeys(pending: map<nat, Pending>, pending': map<nat, Pending>, deferreds: map<nat, seq<Settlement>>,
                 streams: map<nat, StreamState<StreamItem>>)
    requires SettledOk(pending, deferreds) && StreamsOk(pending, streams) && pending.Keys == pending'.Keys
    ensures SettledOk(pending', deferreds) && StreamsOk(pending', streams)
  {
    assert forall id :: id in pending <==> id in pending.Keys;
    assert forall id :: id in pending' <==> id in pending'.Keys;
  }

  lemma ParkOnSlotCore(s: State, id: nat, request: WireRequest)
    requires Core(s) && !s.dead && id in s.issued && id !in s.senders
    requires request == WireRequest(id, s.issued[id]) && Fits(request, s.cfg.maxFrameLen)
    requires forall i :: 0 <= i < |s.wire.ordinary| ==> s.wire.ordinary[i].requestId != id
    ensures Core(s.(senders := s.senders[id := AwaitSlot(Frame(EncodedRequest(request)), request)],
                    slots := s.slots.Acquire(id)))
  {
    hide IdsOk, WireOk, WriterOk, DeadOk, SettledOk, StreamsOk, OriginOk, SendersOk, EncodedRequest, Frame, Fits;
    var sender := AwaitSlot(Frame(EncodedRequest(request)), request);
    SenderParks(s.senders, s.inflight, s.slots, s.pending, id, sender);
    SenderOrigin(s.wire.ordinary, s.wire.cancels, s.senders, s.issued, s.idCounter, id, sender);
  }

  lemma ResumePermitCore(s: State, id: nat)
    requires Core(s) && PermitReady(s, id)
    ensures Core(ResumePermit(s, id))
  {
    hide IdsOk, WireOk, SlotsOk, WriterOk, DeadOk, SettledOk, StreamsOk, OriginOk, SendersOk, PermitsOk;
    hide EncodedRequest, Frame, FailEntry;
    if id !in s.pending || s.dead {
      AbandonCore(s, id);
      FailEntryCore(Abandon(s, id), id, DeadError(s));
    } else {
      var s1 := TakePermit(s, id);
      var request := WireRequest(id, s.senders[id].kind);
      var body := EncodedRequest(request);
      TakePermitCore(s, id);
      SenderGone(s.senders, s.wire.ordinary, s.wire.cancels, s.issued, s.cfg.maxFrameLen, s.idCounter, id);
      if Fits(request, s.cfg.maxFrameLen) {
        ParkOnSlotCore(s1, id, request);
        assert s1.senders[id := AwaitSlot(Frame(body), request)] == s.senders[id := AwaitSlot(Frame(body), request)];
      } else {
        FailEntryCore(s1, id, FrameError(FrameTooLarge(|body|, s.cfg.maxFrameLen)));
      }
    }
  }

  lemma OriginPush(ordinary: seq<WireRequest>, cancels: seq<WireRequest>, senders: map<nat, Sender>,
                   issued: map<nat, RequestKind>, n: nat, r: WireRequest)
    requires OriginOk(ordinary, cancels, senders, issued, n)
    requires r.requestId in issued && r.kind == issued[r.requestId] && r.requestId !in senders
    requires forall i :: 0 <= i < |ordinary| ==> ordinary[i].requestId != r.requestId
    ensures OriginOk(ordinary + [r], cancels, senders, issued, n)
  {
  }

  /** The sender's frame joins the queue; its slot now counts as the queue's length. */
  lemma PushFrameCore(s: State, id: nat)
    requires Core(s) && SlotReady(s, id) && !s.dead
    ensures Core(ResumeSlot(s, id))
  {
    hide DeadOk, SettledOk, StreamsOk, OriginOk, SendersOk, PermitsOk, QueueOk, Signal, EncodedRequest, Frame, Fits;
    var sender := s.senders[id];
    SenderWakes(s.senders, s.inflight, s.slots, s.pending, id);
    SenderGone(s.senders, s.wire.ordinary, s.wire.cancels, s.issued, s.cfg.maxFrameLen, s.idCounter, id);
    QueuePush(s.wire.ordinary, s.wire.outbound, s.wire.sent, false, s.cfg.maxFrameLen, s.dead, sender.request);
    OriginPush(s.wire.ordinary, s.wire.cancels, s.senders - {id}, s.issued, s.idCounter, sender.request);
    SignalCore(s.(slots := s.slots.Resume(id), senders := s.senders - {id},
                  wire := s.wire.(outbound := s.wire.outbound + [sender.frame],
                                  ordinary := s.wire.ordinary + [sender.request])));
  }

  lemma ResumeSlotCore(s: State, id: nat)
    requires Core(s) && SlotReady(s, id)
    ensures Core(ResumeSlot(s, id))
  {
    hide IdsOk, WireOk, WriterOk, DeadOk, SettledOk, StreamsOk, FramesOk, OriginOk, SendersOk, PermitsOk, FailEntry;
    if s.dead {
      var s1 := s.(slots := s.slots.Resume(id).Release(), senders := s.senders - {id});
      SenderWakes(s.senders, s.inflight, s.slots, s.pending, id);
      SenderGone(s.senders, s.wire.ordinary, s.wire.cancels, s.issued, s.cfg.maxFrameLen, s.idCounter, id);
      FailEntryCore(s1, id, DeadError(s));
    } else {
      PushFrameCore(s, id);
    }
  }

  // ---------------------------------------------------------------------------
  // The writer
  // ---------------------------------------------------------------------------

  lemma {:induction false} ReleaseTimesValid(senders: map<nat, Sender>, inflight: Sem, slots: Sem,
                                             pending: map<nat, Pending>, n: nat)
    requires SendersOk(senders, inflight, slots, pending)
    ensures SendersOk(senders, inflight, ReleaseTimes(slots, n), pending)
    ensures ReleaseTimes(slots, n).Available() == slots.Available() + n
    decreases n
  {
    if n > 0 {
      ReleaseValid(slots);
      ReleaseTimesValid(senders, inflight, slots.Release(), pending, n - 1);
    }
  }

  lemma WrittenCore(s: State)
    requires Core(s) && !s.dead && s.writer == Ready
    ensures Core(Written(s))
  {
    hide IdsOk, WireOk, DeadOk, SettledOk, StreamsOk, FramesOk, OriginOk, SendersOk, PermitsOk, Flatten, Batch;
    WriteBatch(s.wire, s.cfg.maxFrameLen);
    ReleaseTimesValid(s.senders, s.inflight, s.slots, s.pending, |s.wire.outbound|);
  }

  lemma AwaitGateCore(s: State)
    requires Core(s) && !s.dead && s.writer == Ready && s.wire.outbound == [] && s.wire.priority == []
    ensures Core(AwaitGate(s))
  {
    hide IdsOk, WireOk, DeadOk, SettledOk, StreamsOk, FramesOk, OriginOk, SendersOk, PermitsOk, SlotsOk;
  }

  lemma WriterOver(s: State)
    requires Core(s) && s.dead && s.writer != Parked
    ensures Core(s.(writer := Over))
  {
    hide IdsOk, WireOk, DeadOk, SettledOk, StreamsOk, FramesOk, OriginOk, SendersOk, PermitsOk, SlotsOk;
  }

  lemma RunWriterCore(s: State, result: WriteResult)
    requires Core(s) && s.writer == Ready
    ensures Core(RunWriter(s, result))
  {
    hide IdsOk, WireOk, DeadOk, SettledOk, StreamsOk, FramesOk, OriginOk, SendersOk, PermitsOk, SlotsOk;
    hide Flatten, FailConnection, LastN, ReleaseTimes;
    if s.dead {
      WriterOver(s);
    } else if s.wire.priority == [] && s.wire.outbound == [] {
      AwaitGateCore(s);
    } else if result == Throws {
      var taken := s.(wire := s.wire.(priority := [], outbound := []), writer := Over);
      WireDies(s.wire, s.cfg.maxFrameLen, s.dead);
      Dies(taken, ConnError(WriteFailed(WriteException)));
      var dead := FailConnection(taken, ConnError(WriteFailed(WriteException)));
      FailConnectionIsDead(taken, ConnError(WriteFailed(WriteException)));
      WriterOver(dead);
    } else {
      WrittenCore(s);
      if result == Full {
        WriterDrains(Written(s));
      } else {
        AwaitGateCore(Written(s));
      }
    }
  }

  lemma WriterDrains(s: State)
    requires Core(s) && s.writer != Parked
    ensures Core(s.(writer := Draining))
  {
    hide IdsOk, WireOk, DeadOk, SettledOk, StreamsOk, FramesOk, OriginOk, SendersOk, PermitsOk, SlotsOk;
  }

  lemma FailConnectionIsDead(s: State, e: Error)
    ensures FailConnection(s, e).dead
    ensures s.writer != Parked || s.gate.waiting ==> FailConnection(s, e).writer != Parked || s.dead
  {
    hide FailedDeferreds, FailedStreams, PermitIds;
  }

  lemma ResumeWriterCore(s: State, result: WriteResult)
    requires Core(s)
    ensures Core(ResumeWriter(s, result))
  {
    hide IdsOk, WireOk, DeadOk, SettledOk, StreamsOk, FramesOk, OriginOk, SendersOk, PermitsOk, SlotsOk, RunWriter;
    if s.writer == Ready {
      RunWriterCore(s, result);
    } else if s.writer == DrainFailed {
      WriterOver(s);
    }
  }

  lemma SocketGoneCore(s: State, reason: ConnReason)
    requires Core(s)
    ensures Core(SocketGone(s, reason))
  {
    hide IdsOk, WireOk, DeadOk, SettledOk, StreamsOk, FramesOk, OriginOk, SendersOk, PermitsOk, SlotsOk;
    hide FailConnection;
    FailConnectionCore(s, ConnError(reason));
    FailConnectionIsDead(s, ConnError(reason));
  }

  // ---------------------------------------------------------------------------
  // The reader
  // ---------------------------------------------------------------------------

  /** Delivering a batch to an open stream appends it, whole and in order, to what the stream took. */
  lemma {:induction false} DeliverAllAppends(st: StreamState<StreamItem>, items: seq<StreamItem>)
    requires st.Valid()
    ensures var t := DeliverAll(st, items);
            && t.Valid() && t == st.(sink := t.sink) && t.sink.done == st.sink.done
            && t.sink.Accepted() == if st.sink.done then st.sink.Accepted() else st.sink.Accepted() + items
  {
    if items == [] {
      assert st.sink.Accepted() + [] == st.sink.Accepted();
    } else {
      var init, last := items[..|items| - 1], items[|items| - 1];
      DeliverAllAppends(st, init);
      AcceptedAfter(DeliverAll(st, init).sink, last, WriteException);
      assert items == init + [last];
      assert st.sink.Accepted() + init + [last] == st.sink.Accepted() + items;
    }
  }

  lemma RecordCore(s: State, r: WireResponse)
    requires Core(s)
    ensures Core(Record(s, r))
  {
    hide IdsOk, WireOk, DeadOk, SettledOk, StreamsOk, FramesOk, OriginOk, SendersOk, PermitsOk, SlotsOk, WriterOk;
  }

  lemma AbortStreamCore(s: State, id: nat, e: Error)
    requires Core(s) && id in s.streams
    ensures Core(AbortStream(s, id, e).state)
  {
    hide IdsOk, WireOk, DeadOk, SettledOk, FramesOk, OriginOk, SendersOk, PermitsOk, SlotsOk, WriterOk, CancelStream;
    FailWithEnds(s.streams[id], e);
    CancelStreamCore(s, id, s.streams[id].FailWith(e));
  }

  lemma DeliverCore(s: State, id: nat, items: seq<StreamItem>)
    requires Core(s) && id in s.streams
    ensures Core(SetStream(s, id, DeliverAll(s.streams[id], items)))
  {
    hide IdsOk, WireOk, DeadOk, SettledOk, FramesOk, OriginOk, SendersOk, PermitsOk, SlotsOk, WriterOk;
    DeliverAllAppends(s.streams[id], items);
    SetStreamCore(s, id, DeliverAll(s.streams[id], items));
  }

  /** The stream of a pending read or subscription is open, and what each ending or delivery makes of it. */
  lemma PendingStream(s: State, id: nat, item: StreamItem, e: Error, w: int)
    requires Core(s) && id in s.pending && !IsCall(s.pending[id].kind)
    ensures id in s.streams
    ensures var st := s.streams[id];
            && st.Valid() && !st.sink.done
            && st.FailWith(e).Valid() && st.FailWith(e).sink.done
            && st.EndWith(w).Valid() && st.EndWith(w).sink.done
            && st.Deliver(item).Valid() && !st.Deliver(item).sink.done
  {
    hide WireOk, DeadOk, SettledOk, FramesOk, OriginOk, SendersOk, PermitsOk, SlotsOk, WriterOk;
    EntryKnown(s, id);
  }

  lemma RouteReadCore(s: State, id: nat, k: ResponseKind)
    requires Core(s) && id in s.pending && s.pending[id].kind == ReadPending
    ensures Core(RouteRead(s, id, k).state)
  {
    hide Core, AbortStream, Mapped, DeliverAll, Finalize, StreamState.FailWith, StreamState.EndWith;
    PendingStream(s, id, CaughtUpItem(0), WriteException, 0);
    match k
    case ReadEvents(events) =>
      AbortStreamCore(s, id, ProtocolError(MissingEvent));
      if Mapped(events).Some? {
        DeliverCore(s, id, Mapped(events).value);
      }
    case ReadEnd(w) =>
      PendingStream(s, id, CaughtUpItem(0), WriteException, w);
      CloseStreamCore(s, id, s.streams[id].EndWith(w));
    case ErrorResponse(e) =>
      PendingStream(s, id, CaughtUpItem(0), ServerError(e), 0);
      CloseStreamCore(s, id, s.streams[id].FailWith(ServerError(e)));
    case _ => AbortStreamCore(s, id, ProtocolError(UnexpectedKind));
  }

  lemma RouteSubscribeCore(s: State, id: nat, k: ResponseKind)
    requires Core(s) && id in s.pending && s.pending[id].kind == SubscribePending
    ensures Core(RouteSubscribe(s, id, k).state)
  {
    hide Core, AbortStream, Mapped, DeliverAll, Finalize, StreamState.FailWith, StreamState.Deliver;
    PendingStream(s, id, CaughtUpItem(0), WriteException, 0);
    match k
    case ReadEvents(events) =>
      AbortStreamCore(s, id, ProtocolError(MissingEvent));
      if Mapped(events).Some? {
        DeliverCore(s, id, Mapped(events).value);
      }
    case CaughtUp(w) =>
      PendingStream(s, id, CaughtUpItem(w), WriteException, 0);
      SetStreamCore(s, id, s.streams[id].Deliver(CaughtUpItem(w)));
    case ErrorResponse(e) =>
      PendingStream(s, id, CaughtUpItem(0), ServerError(e), 0);
      CloseStreamCore(s, id, s.streams[id].FailWith(ServerError(e)));
    case _ => AbortStreamCore(s, id, ProtocolError(UnexpectedKind));
  }

  lemma RouteCore(s: State, r: WireResponse)
    requires Core(s)
    ensures Core(Route(s, r).state)
  {
    hide IdsOk, WireOk, DeadOk, SettledOk, StreamsOk, FramesOk, OriginOk, SendersOk, PermitsOk, SlotsOk, WriterOk;
    hide RouteRead, RouteSubscribe, FailConnection, Finalize;
    var s1, id := Record(s, r), r.requestId;
    RecordCore(s, r);
    if id == 0 {
      if r.kind.ErrorResponse? {
        FailConnectionCore(s1, ConnError(Unattributed(ServerError(r.kind.error))));
      }
    } else if id in s.pending {
      match s.pending[id].kind
      case HelloPending => SettleCore(s1, id, HelloSettlement(r.kind));
      case UnaryPending(wants) => SettleCore(s1, id, UnarySettlement(wants, r.kind));
      case ReadPending => RouteReadCore(s1, id, r.kind);
      case SubscribePending => RouteSubscribeCore(s1, id, r.kind);
    }
  }

  lemma {:induction false} RouteAllCore(s: State, bodies: seq<bytes>)
    requires Core(s)
    ensures Core(RouteAll(s, bodies))
    decreases |bodies|
  {
    hide Core, Route, FailConnection, DecodedResponse;
    if bodies != [] {
      match DecodedResponse(bodies[0])
      case Err(e) => FailConnectionCore(s, ConnError(ProtocolFailed(BodyError(e))));
      case Ok(r) =>
        var t := Route(s, r);
        RouteCore(s, r);
        if t.error.Some? {
          FailConnectionCore(t.state, ConnError(ProtocolFailed(t.error.value)));
        } else {
          RouteAllCore(t.state, bodies[1..]);
        }
    }
  }

  lemma OnDataCore(s: State, chunk: bytes)
    requires Core(s)
    ensures Core(OnData(s, chunk))
  {
    hide IdsOk, WireOk, DeadOk, SettledOk, StreamsOk, FramesOk, OriginOk, SendersOk, PermitsOk, SlotsOk, WriterOk;
    hide RouteAll, FailConnection, PushResult;
    var push := PushResult(s.cfg.maxFrameLen, s.buffer, chunk);
    var s1 := s.(buffer := push.1, received := s.received + chunk);
    assert Core(s1);
    match push.0
    case Err(e) => FailConnectionCore(s1, ConnError(FramingFailed(FrameError(e))));
    case Ok(bodies) => RouteAllCore(s1, bodies);
  }

  // ---------------------------------------------------------------------------
  // Every turn, every run
  // ---------------------------------------------------------------------------

  lemma NextCore(s: State, id: nat)
    requires Core(s) && id in s.streams
    ensures Core(SetStream(s, id, s.streams[id].Next()))
  {
    hide IdsOk, WireOk, DeadOk, SettledOk, FramesOk, OriginOk, SendersOk, PermitsOk, SlotsOk, WriterOk;
    SetStreamCore(s, id, s.streams[id].Next());
  }

  lemma DrainedCore(s: State)
    requires Core(s) && s.writer == Draining
    ensures Core(s.(writer := Ready))
  {
    hide IdsOk, WireOk, DeadOk, SettledOk, StreamsOk, FramesOk, OriginOk, SendersOk, PermitsOk, SlotsOk;
  }

  lemma StepCore(s: State, ev: Event)
    requires Core(s)
    ensures Core(Step(s, ev))
  {
    hide Core, OpenUnary, OpenOther, CancelUnary, EndStream, ResumePermit, ResumeSlot, ResumeWriter, SocketGone;
    hide FailConnection, OnData, SetStream, PermitReady, SlotReady, IsUnary;
    match ev
    case CallAppend(append, aborted) => OpenUnaryCore(s, AppendRequest(append), WantsAppend, aborted);
    case CallStats(aborted) => OpenUnaryCore(s, StatsRequest, WantsStats, aborted);
    case CallRead(read, listening) => OpenOtherCore(s, ReadPending, ReadRequest(read), listening);
    case CallSubscribe(subscribe, listening) =>
      OpenOtherCore(s, SubscribePending, SubscribeRequest(subscribe), listening);
    case AbortCall(id, reason) => if IsUnary(s, id) { CancelUnaryCore(s, id, reason); }
    case AbortOfStream(id, reason) => if id in s.streams { EndStreamCore(s, id, Some(reason)); }
    case CloseOfStream(id) => if id in s.streams { EndStreamCore(s, id, None); }
    case NextOfStream(id) => if id in s.streams { NextCore(s, id); }
    case PermitResumes(id) => if PermitReady(s, id) { ResumePermitCore(s, id); }
    case SlotResumes(id) => if SlotReady(s, id) { ResumeSlotCore(s, id); }
    case WriterResumes(result) => ResumeWriterCore(s, result);
    case Drained => if s.writer == Draining { DrainedCore(s); }
    case SocketError => SocketGoneCore(s, SocketFailed);
    case SocketClosed => SocketGoneCore(s, Closed);
    case CloseConnection => FailConnectionCore(s, ConnError(Closed));
    case Data(chunk) => OnDataCore(s, chunk);
  }

  lemma ConnectedCore(cfg: Config, token: Option<bytes>)
    ensures Core(Connected(cfg, token))
  {
    hide Core, OpenOther;
    InitCore(cfg);
    OpenOtherCore(Init(cfg), HelloPending, HelloRequest(WireHello(PROTOCOL_VERSION, token)), false);
  }

  lemma {:induction false} RunCore(start: State, events: seq<Event>)
    requires Core(start)
    ensures Core(Run(start, events))
  {
    hide Core, Step;
    if events != [] {
      RunCore(start, events[..|events| - 1]);
      StepCore(Run(start, events[..|events| - 1]), events[|events| - 1]);
    }
  }
}
