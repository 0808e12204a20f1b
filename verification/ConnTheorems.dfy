/** The connection's promises, over every run of every connection, from the first turn on. */
module ConnTheorems {
  import opened Base
  import opened Messages
  import opened RoundTrip
  import opened WireFormat
  import opened Framing
  import opened Streams
  import Errors
  import opened ConnState
  import opened ConnInv
  import opened ConnOrder
  import opened ConnDemux
  import opened ConnInbound
  import opened ConnProgress
  import opened ConnDeath
  import opened ConnIdle
  import opened ConnWire
  import opened ConnHistory

  /** The state of a connection after any turns whatever. */
  function After(cfg: Config, token: Option<bytes>, events: seq<Event>): State {
    Run(Connected(cfg, token), events)
  }

  lemma {:induction false} RunConcat(s: State, a: seq<Event>, b: seq<Event>)
    ensures Run(s, a + b) == Run(Run(s, a), b)
    decreases |b|
  {
    hide Step;
    if b == [] {
      assert a + b == a;
    } else {
      var init, last := b[..|b| - 1], b[|b| - 1];
      RunConcat(s, a, init);
      assert (a + b)[..|a + b| - 1] == a + init && (a + b)[|a + b| - 1] == last;
    }
  }

  lemma AfterKeeps(cfg: Config, token: Option<bytes>, events: seq<Event>)
    ensures var s := After(cfg, token, events);
            Core(s) && Heard(s, {}) && InboundOk(s) && Tracked(s) && s.cfg == cfg
  {
    hide Core, Heard, InboundOk, Tracked, Run, Connected, TablesLater, WireLater, DeathLater;
    ConnectedCore(cfg, token);
    ConnectedHeard(cfg, token);
    ConnectedInbound(cfg, token);
    ConnectedTracked(cfg, token);
    ConnectedConfig(cfg, token);
    RunCore(Connected(cfg, token), events);
    RunHeard(Connected(cfg, token), events);
    RunInbound(Connected(cfg, token), events);
    RunLater(Connected(cfg, token), events);
    RunTracked(Connected(cfg, token), events);
  }

  lemma AfterHistory(cfg: Config, token: Option<bytes>, events: seq<Event>)
    ensures History(After(cfg, token, events))
  {
    hide Core, History, Connected, Run;
    ConnectedCore(cfg, token);
    ConnectedHistory(cfg, token);
    RunHistory(Connected(cfg, token), events);
  }

  lemma ConnectedConfig(cfg: Config, token: Option<bytes>)
    ensures Connected(cfg, token).cfg == cfg
  {
  }

  // ---------------------------------------------------------------------------
  // Settlement
  // ---------------------------------------------------------------------------

  /**
   * Exactly once. A call is in the table and unsettled, or out of it and settled once; a stream is in
   * the table and open-ended, or out of it and ended; `onCancel` ran at most once; a watermark means
   * the stream ended; and if every cancel fits a frame, a stream is closed exactly when it has ended.
   */
  lemma SettledExactlyOnce(cfg: Config, token: Option<bytes>, events: seq<Event>)
    ensures var s := After(cfg, token, events);
            && (forall id :: id in s.issued <==> id in s.deferreds || id in s.streams)
            && (forall id :: id in s.pending ==> id in s.issued)
            && (forall id :: id in s.deferreds ==> |s.deferreds[id]| == if id in s.pending then 0 else 1)
            && (forall id :: id in s.streams ==>
                  && (id in s.pending <==> !s.streams[id].sink.done)
                  && s.streams[id].cancels <= 1
                  && (s.streams[id].watermark.Some? ==> s.streams[id].sink.done)
                  && (cfg.maxFrameLen >= CANCEL_LEN ==> (s.streams[id].closed <==> s.streams[id].sink.done)))
  {
    hide PermitsOk, SendersOk, WireOk, OriginOk, FramesOk, SlotsOk, WriterOk, DeadOk, Heard, InboundOk, After, SentOk;
    AfterKeeps(cfg, token, events);
  }

  /** And for good: no later turn settles a promise again, reopens a stream, or changes how it ended. */
  lemma SettledForGood(cfg: Config, token: Option<bytes>, before: seq<Event>, after: seq<Event>, id: nat)
    requires var s := After(cfg, token, before); id in s.issued && id !in s.pending
    ensures var s, t := After(cfg, token, before), After(cfg, token, before + after);
            && id !in t.pending && Promise(t, id) == Promise(s, id)
            && (id in s.streams ==>
                  && id in t.streams && t.streams[id].sink.done
                  && t.streams[id].sink.Terminal() == s.streams[id].sink.Terminal()
                  && t.streams[id].sink.Accepted() == s.streams[id].sink.Accepted()
                  && t.streams[id].watermark == s.streams[id].watermark)
  {
    hide PermitsOk, SendersOk, WireOk, OriginOk, FramesOk, SlotsOk, WriterOk, DeadOk, Heard, InboundOk, Tracked, Run;
    hide SinkState.Accepted, WireLater, DeathLater, InputLater;
    var s, t := After(cfg, token, before), After(cfg, token, before + after);
    AfterKeeps(cfg, token, before);
    AfterKeeps(cfg, token, before + after);
    RunConcat(Connected(cfg, token), before, after);
    RunLater(s, after);
  }

  // ---------------------------------------------------------------------------
  // The two budgets and the writer
  // ---------------------------------------------------------------------------

  /**
   * In-flight permits are conserved: those free, those handed out and not yet picked up, those owned by
   * entries of the table, and those stranded by death always add up to the configured budget.
   */
  lemma PermitsConserved(cfg: Config, token: Option<bytes>, events: seq<Event>)
    ensures var s := After(cfg, token, events);
            && s.inflight.permits + |s.inflight.granted| + |PermitIds(s.pending)| + s.stranded == cfg.maxInflight
            && (!s.dead ==> s.stranded == 0)
            && (s.inflight.waiters != [] ==> s.inflight.permits == 0)
  {
    hide IdsOk, SettledOk, StreamsOk, WireOk, OriginOk, FramesOk, SlotsOk, WriterOk, DeadOk, Heard, InboundOk;
    hide Tracked, After, PermitIds;
    AfterKeeps(cfg, token, events);
  }

  /** Queue slots are conserved while alive, so the queue never exceeds its depth; in death nobody waits for one. */
  lemma SlotsConserved(cfg: Config, token: Option<bytes>, events: seq<Event>)
    ensures var s := After(cfg, token, events);
            && (!s.dead ==> s.slots.permits + |s.slots.granted| + |s.wire.outbound| == cfg.queueDepth)
            && (s.slots.waiters != [] ==> !s.dead && s.slots.permits == 0)
  {
    hide IdsOk, SettledOk, StreamsOk, WireOk, OriginOk, FramesOk, PermitsOk, WriterOk, DeadOk, Heard, InboundOk;
    hide Tracked, After;
    AfterKeeps(cfg, token, events);
  }

  /** No lost wake-up: whenever the writer is parked there is nothing to write and no signal it missed. */
  lemma NoLostWakeUp(cfg: Config, token: Option<bytes>, events: seq<Event>)
    ensures var s := After(cfg, token, events);
            && (s.gate.waiting <==> s.writer == Parked)
            && (s.writer == Parked ==> s.wire.outbound == [] && s.wire.priority == [] && !s.gate.signalled && !s.dead)
  {
    hide IdsOk, SettledOk, StreamsOk, WireOk, OriginOk, FramesOk, PermitsOk, SlotsOk, SendersOk, DeadOk, Heard;
    hide InboundOk, Tracked, After;
    AfterKeeps(cfg, token, events);
  }

  // ---------------------------------------------------------------------------
  // The wire, outbound
  // ---------------------------------------------------------------------------

  lemma {:induction false} BodiesPointwise(requests: seq<WireRequest>, max: nat)
    requires forall r <- requests :: ConnInv.Fits(r, max)
    ensures |BodiesOf(requests)| == |requests|
    ensures forall i :: 0 <= i < |requests| ==> BodiesOf(requests)[i] == EncodedRequest(requests[i])
    ensures forall body <- BodiesOf(requests) :: |body| <= max
  {
    hide EncodedRequest;
    if requests != [] {
      var init := requests[..|requests| - 1];
      assert requests == init + [requests[|requests| - 1]];
      BodiesPointwise(init, max);
      assert requests[|requests| - 1] in requests;
    }
  }

  /**
   * At every moment the bytes written are whole frames, and parse to the bodies of the requests sent, if
   * and only if each body fits the 32-bit header; each body decodes to its request. The requests sent
   * are the ordinary ones in the order they were queued and the cancels in the order they were issued,
   * interleaved, with none lost or repeated; while the connection lives, the rest of each is still
   * queued, and after death what was not written never will be.
   */
  lemma OutboundEndToEnd(cfg: Config, token: Option<bytes>, events: seq<Event>)
    ensures var s := After(cfg, token, events);
            var w, bodies := s.wire, BodiesOf(s.wire.sent);
            && |bodies| == |w.sent| && (forall body <- bodies :: |body| <= cfg.maxFrameLen)
            && (Parse(cfg.maxFrameLen, w.written) == Parsed(bodies, [], None)
                <==> forall body <- bodies :: |body| < TWO32)
            && (forall i :: 0 <= i < |bodies| && |bodies[i]| < TWO64 ==>
                  DecodedRequest(bodies[i]) == Ok(CanonRequest(w.sent[i])))
            && Select(w.sent, false) <= w.ordinary && Select(w.sent, true) <= w.cancels
            && (!s.dead ==>
                  && |w.outbound| <= |w.ordinary| && |w.priority| <= |w.cancels|
                  && w.ordinary == Select(w.sent, false) + LastN(w.ordinary, |w.outbound|)
                  && w.cancels == Select(w.sent, true) + LastN(w.cancels, |w.priority|)
                  && w.outbound == FramesOf(LastN(w.ordinary, |w.outbound|))
                  && w.priority == FramesOf(LastN(w.cancels, |w.priority|)))
  {
    hide IdsOk, SettledOk, StreamsOk, OriginOk, FramesOk, PermitsOk, SlotsOk, SendersOk, DeadOk, WriterOk;
    hide Heard, InboundOk, Tracked, After, EncodedRequest, DecodedRequest, CanonRequest, Parse, FramesOf, BodiesOf;
    hide Framed, Select;
    AfterKeeps(cfg, token, events);
    var w := After(cfg, token, events).wire;
    BodiesPointwise(w.sent, cfg.maxFrameLen);
    ParseFramed(cfg.maxFrameLen, BodiesOf(w.sent));
    forall i | 0 <= i < |w.sent| && |BodiesOf(w.sent)[i]| < TWO64
      ensures DecodedRequest(BodiesOf(w.sent)[i]) == Ok(CanonRequest(w.sent[i]))
    {
      RequestRoundTrip(w.sent[i]);
    }
  }

  /** So a peer that splits those bytes as it pleases sees exactly those bodies, under the same condition. */
  lemma AnyReaderSeesTheRequests(cfg: Config, token: Option<bytes>, events: seq<Event>, chunks: seq<bytes>)
    requires Flatten(chunks) == After(cfg, token, events).wire.written
    ensures var bodies := BodiesOf(After(cfg, token, events).wire.sent);
            var (results, final) := Pushes(cfg.maxFrameLen, [], chunks);
            Delivered(results) == bodies && final == [] && (forall r <- results :: r.Ok?)
            <==> forall body <- bodies :: |body| < TWO32
  {
    hide IdsOk, SettledOk, StreamsOk, OriginOk, FramesOk, PermitsOk, SlotsOk, SendersOk, DeadOk, WriterOk, QueueOk;
    hide Heard, InboundOk, Tracked, After, EncodedRequest, Pushes, BodiesOf, Framed, Flatten, Delivered;
    AfterKeeps(cfg, token, events);
    var w := After(cfg, token, events).wire;
    BodiesPointwise(w.sent, cfg.maxFrameLen);
    AnySplitYieldsTheBodies(cfg.maxFrameLen, BodiesOf(w.sent), chunks);
  }

  /**
   * Which of a cancel and its request comes first is decided when the cancel is queued: if the request
   * has been written by then it comes first, and otherwise the cancel is ahead of it on every
   * continuation.
   */
  lemma CancelGoesFirstExactly(cfg: Config, token: Option<bytes>, before: seq<Event>, after: seq<Event>,
                               c: WireRequest, r: WireRequest)
    requires var w := After(cfg, token, before).wire;
             c in w.cancels && c !in w.sent && !r.kind.CancelRequest?
    requires var w := After(cfg, token, before + after).wire; c in w.sent && r in w.sent
    ensures var unwritten := r !in After(cfg, token, before).wire.sent;
            var sent := After(cfg, token, before + after).wire.sent;
            && (unwritten ==> forall j :: 0 <= j < |sent| && sent[j] == r ==> c in sent[..j])
            && (!unwritten ==> exists j :: 0 <= j < |sent| && sent[j] == r && c !in sent[..j])
  {
    hide Core, Run, Heard, InboundOk, Tracked, TablesLater, DeathLater, InputLater, Leads;
    var s, t := After(cfg, token, before), After(cfg, token, before + after);
    AfterKeeps(cfg, token, before);
    RunConcat(Connected(cfg, token), before, after);
    RunLater(s, after);
    if r in s.wire.sent {
      var j :| 0 <= j < |s.wire.sent| && s.wire.sent[j] == r;
      assert t.wire.sent[..j] == s.wire.sent[..j] && t.wire.sent[j] == r;
    } else {
      assert Leads(s.wire.sent, c, r) by { NoneToLead(s.wire.sent, c, r); }
      RunLeads(s, after, c, r);
      LeadsMeans(t.wire.sent, c, r);
    }
  }

  lemma NoneToLead(sent: seq<WireRequest>, c: WireRequest, r: WireRequest)
    requires r !in sent
    ensures Leads(sent, c, r)
  {
  }

  lemma LeadsMeans(sent: seq<WireRequest>, c: WireRequest, r: WireRequest)
    requires Leads(sent, c, r)
    ensures forall j :: 0 <= j < |sent| && sent[j] == r ==> c in sent[..j]
  {
  }

  /** With a queue of no slots, nothing but cancels is ever queued or written. */
  lemma NoSlotNothingSent(cfg: Config, token: Option<bytes>, events: seq<Event>)
    requires cfg.queueDepth == 0
    ensures var w := After(cfg, token, events).wire;
            w.ordinary == [] && forall r <- w.sent :: r.kind.CancelRequest?
  {
    hide Core, Run, Heard, InboundOk, Tracked, Select;
    AfterKeeps(cfg, token, []);
    AfterKeeps(cfg, token, events);
    StartsUnsent(cfg, token);
    RunNoSlot(Connected(cfg, token), events);
    OnlyCancels(After(cfg, token, events));
  }

  lemma StartsUnsent(cfg: Config, token: Option<bytes>)
    ensures Core(Connected(cfg, token)) && Connected(cfg, token).cfg == cfg && Connected(cfg, token).wire.ordinary == []
  {
    hide Core, OpenOther;
    ConnectedCore(cfg, token);
    ConnectedConfig(cfg, token);
    OpenDeaf(Init(cfg), HelloRequest(WireHello(PROTOCOL_VERSION, token)), WantsStats, HelloPending, false, None);
  }

  lemma OnlyCancels(s: State)
    requires Core(s) && s.wire.ordinary == []
    ensures forall r <- s.wire.sent :: r.kind.CancelRequest?
  {
    hide IdsOk, DeadOk, SettledOk, StreamsOk, FramesOk, OriginOk, SendersOk, PermitsOk, SlotsOk, WriterOk;
    hide FramesOf, BodiesOf, Framed, LastN, Select;
    SelectNothing(s.wire.sent);
  }

  lemma {:induction false} SelectNothing(requests: seq<WireRequest>)
    requires Select(requests, false) == []
    ensures forall r <- requests :: r.kind.CancelRequest?
  {
    if requests != [] {
      SelectNothing(requests[..|requests| - 1]);
      assert requests == requests[..|requests| - 1] + [requests[|requests| - 1]];
    }
  }

  /**
   * Every ordinary request queued is one that was asked for, as it was asked, and no id is queued
   * twice; cancels have fresh ids of their own, in increasing order.
   */
  lemma QueuedAsAsked(cfg: Config, token: Option<bytes>, events: seq<Event>)
    ensures var s := After(cfg, token, events); var w := s.wire;
            && (forall i :: 0 <= i < |w.ordinary| ==>
                  w.ordinary[i].requestId in s.issued && w.ordinary[i].kind == s.issued[w.ordinary[i].requestId])
            && (forall i, j :: 0 <= i < j < |w.ordinary| ==> w.ordinary[i].requestId != w.ordinary[j].requestId)
            && (forall i :: 0 <= i < |w.cancels| ==>
                  w.cancels[i].requestId !in s.issued && w.cancels[i].kind.CancelRequest?)
            && (forall i, j :: 0 <= i < j < |w.cancels| ==> w.cancels[i].requestId < w.cancels[j].requestId)
  {
    hide IdsOk, SettledOk, StreamsOk, FramesOk, PermitsOk, SlotsOk, SendersOk, DeadOk, WriterOk;
    hide Heard, InboundOk, Tracked, After, EncodedRequest, FramesOf, BodiesOf, Framed, Select, ConnInv.Fits, LastN;
    AfterKeeps(cfg, token, events);
  }

  /**
   * What is cancelled: each cancel names a request that was asked, that is not the hello and that has left
   * the table, for good; and no request is cancelled twice.
   */
  lemma CancelsAreForTheAbandoned(cfg: Config, token: Option<bytes>, events: seq<Event>)
    ensures var s := After(cfg, token, events); var cs := s.wire.cancels;
            && (forall i :: 0 <= i < |cs| ==>
                  && cs[i].kind.CancelRequest? && cs[i].kind.target in s.issued
                  && cs[i].kind.target !in s.pending && !s.issued[cs[i].kind.target].HelloRequest?)
            && (forall i, j :: 0 <= i < j < |cs| ==> cs[i].kind != cs[j].kind)
  {
    hide After, AnswersOk;
    AfterHistory(cfg, token, events);
    var s := After(cfg, token, events);
    forall i | 0 <= i < |s.wire.cancels|
      ensures Abandoned(s.wire.cancels[i], s.pending, s.issued)
    {
    }
  }

  // ---------------------------------------------------------------------------
  // The wire, inbound
  // ---------------------------------------------------------------------------

  /**
   * While the connection lives, whatever the chunks were, the responses routed are those of a one-shot
   * parse of all bytes received, each decoded, in order.
   */
  lemma InboundEndToEnd(cfg: Config, token: Option<bytes>, events: seq<Event>)
    requires !After(cfg, token, events).dead
    ensures var s := After(cfg, token, events);
            var p := Parse(cfg.maxFrameLen, s.received);
            && p == Parsed(p.frames, s.buffer, None) && |s.routed| == |p.frames|
            && forall i :: 0 <= i < |p.frames| ==> DecodedResponse(p.frames[i]) == Ok(s.routed[i].response)
  {
    hide Core, Heard, Tracked, After, DecodedResponse, Parse;
    AfterKeeps(cfg, token, events);
  }

  function Encodings(responses: seq<WireResponse>): seq<bytes> {
    if responses == [] then []
    else Encodings(responses[..|responses| - 1]) + [EncodedResponse(responses[|responses| - 1])]
  }

  lemma {:induction false} EncodingsPointwise(responses: seq<WireResponse>)
    ensures |Encodings(responses)| == |responses|
    ensures forall i :: 0 <= i < |responses| ==> Encodings(responses)[i] == EncodedResponse(responses[i])
  {
    hide EncodedResponse;
    if responses != [] {
      EncodingsPointwise(responses[..|responses| - 1]);
    }
  }

  /** A server that frames its responses, each within the limit and the header, has each routed, once, in order. */
  lemma {:induction false} EveryResponseIsRouted(cfg: Config, token: Option<bytes>, events: seq<Event>,
                                                 responses: seq<WireResponse>)
    requires !After(cfg, token, events).dead
    requires forall body <- Encodings(responses) :: |body| <= cfg.maxFrameLen && |body| < TWO32
    requires After(cfg, token, events).received == Framed(Encodings(responses))
    ensures var s := After(cfg, token, events);
            && s.buffer == [] && |s.routed| == |responses|
            && forall i :: 0 <= i < |responses| ==> s.routed[i].response == CanonResponse(responses[i])
  {
    hide After, Parse, Framed, Encodings, EncodedResponse, DecodedResponse, CanonResponse;
    InboundEndToEnd(cfg, token, events);
    ParseFramed(cfg.maxFrameLen, Encodings(responses));
    EncodingsPointwise(responses);
    var s := After(cfg, token, events);
    forall i | 0 <= i < |responses|
      ensures s.routed[i].response == CanonResponse(responses[i])
    {
      assert Encodings(responses)[i] in Encodings(responses);
      ResponseRoundTrip(responses[i]);
    }
  }

  /**
   * Demultiplexing is projection. A stream took exactly the items of the responses routed to its id
   * while it was in the table, in order, and has the last one's watermark; every response before the
   * last left it open, and one that did not ended it with its verdict, or, where the cancel it called
   * for did not fit a frame, with what the connection died of. A call heard at most one response, and if
   * it did that response settled it.
   */
  lemma DemultiplexingIsProjection(cfg: Config, token: Option<bytes>, events: seq<Event>, id: nat)
    requires id in After(cfg, token, events).issued
    ensures var s := After(cfg, token, events);
            var request, ks := s.issued[id], Live(s.routed, id);
            && (id in s.streams ==>
                  var sink := s.streams[id].sink;
                  && sink.Accepted() == ItemsOf(request, ks)
                  && s.streams[id].watermark == WatermarkIn(request, ks)
                  && (forall i :: 0 <= i < |ks| - 1 ==> Continues(request, ks[i]))
                  && (ks != [] && !Continues(request, ks[|ks| - 1]) ==>
                        && id !in s.pending && sink.done
                        && (sink.Terminal() == Verdict(request, ks[|ks| - 1])
                            || (Violates(request, ks[|ks| - 1]) && cfg.maxFrameLen < CANCEL_LEN && CancelThrew(s.cause)
                                && sink.Terminal() == Failed(s.cause.value)))))
            && (id in s.deferreds ==>
                  if ks == [] then forall o <- s.deferreds[id] :: o.Rejected?
                  else |ks| == 1 && s.deferreds[id] == [Reaction(request, ks[0])])
  {
    hide Core, InboundOk, Tracked, After, Live, ItemsOf, WatermarkIn, Continues, Violates, Verdict, Reaction;
    hide SinkState.Accepted, CancelThrew;
    AfterKeeps(cfg, token, events);
  }

  /**
   * What a consumer gets. The answers of its calls of `next`, in order, are the items of the responses
   * routed to its id, in order, and after the last of them only the outcome of the stream; what it has
   * not taken yet is buffered, and a call is parked only when it has taken everything so far.
   */
  lemma ConsumersGetTheProjection(cfg: Config, token: Option<bytes>, events: seq<Event>, id: nat)
    requires id in After(cfg, token, events).streams
    ensures id in After(cfg, token, events).issued
    ensures var s := After(cfg, token, events);
            var sink, items := s.streams[id].sink, ItemsOf(s.issued[id], Live(s.routed, id));
            && (forall k :: 0 <= k < |sink.settled| ==>
                  sink.settled[k] == if k < |items| then Item(items[k]) else sink.Terminal())
            && (|sink.settled| > |items| ==> sink.done)
            && sink.queue == items[Min(|sink.settled|, |items|)..]
            && (sink.waiting ==> |sink.settled| == |items| && !sink.done)
  {
    hide Core, Heard, InboundOk, Tracked, After, Live, ItemsOf, SinkState.Accepted, SinkState.Terminal;
    StreamIssued(cfg, token, events, id);
    DemultiplexingIsProjection(cfg, token, events, id);
    AfterHistory(cfg, token, events);
    AnswersInOrder(After(cfg, token, events).streams[id].sink);
  }

  lemma StreamIssued(cfg: Config, token: Option<bytes>, events: seq<Event>, id: nat)
    requires id in After(cfg, token, events).streams
    ensures id in After(cfg, token, events).issued
  {
    hide After;
    SettledExactlyOnce(cfg, token, events);
  }

  lemma AnswersInOrder(sink: SinkState<StreamItem>)
    requires InOrder(sink)
    ensures var items := sink.Accepted();
            && (forall k :: 0 <= k < |sink.settled| ==>
                  sink.settled[k] == if k < |items| then Item(items[k]) else sink.Terminal())
            && (|sink.settled| > |items| ==> sink.done)
            && sink.queue == items[Min(|sink.settled|, |items|)..]
            && (sink.waiting ==> |sink.settled| == |items| && !sink.done)
  {
    hide SinkState.Accepted, SinkState.Terminal;
  }

  // ---------------------------------------------------------------------------
  // Death
  // ---------------------------------------------------------------------------

  /**
   * Death is final. Once dead, on every continuation the first cause stays the cause, no queue changes
   * and no byte is written, nobody waits for a queue slot, and only reads and subscriptions opened
   * after the death can be in the table.
   */
  lemma DeathIsFinal(cfg: Config, token: Option<bytes>, before: seq<Event>, after: seq<Event>)
    requires After(cfg, token, before).dead
    ensures var s, t := After(cfg, token, before), After(cfg, token, before + after);
            && t.dead && t.cause == s.cause && t.cause.Some?
            && t.wire == s.wire && t.slots.waiters == []
            && forall id :: id in t.pending ==> id > s.deathId && !IsCall(t.pending[id].kind)
  {
    hide PermitsOk, SendersOk, WireOk, OriginOk, FramesOk, WriterOk, IdsOk, SettledOk, StreamsOk;
    hide Heard, InboundOk, Tracked, Run, TablesLater, WireLater, InputLater;
    var s := After(cfg, token, before);
    AfterKeeps(cfg, token, before);
    AfterKeeps(cfg, token, before + after);
    RunConcat(Connected(cfg, token), before, after);
    RunLater(s, after);
  }

  /** A later failure changes nothing at all, and a unary call is refused with the first cause. */
  lemma DeathRefuses(cfg: Config, token: Option<bytes>, events: seq<Event>, e: Errors.Error,
                     aborted: Option<Errors.Error>)
    requires After(cfg, token, events).dead
    ensures var s := After(cfg, token, events);
            && FailConnection(s, e) == s
            && s.cause.Some?
            && Step(s, CallStats(aborted)) == s.(refusals := s.refusals + [s.cause.value])
            && forall request :: Step(s, CallAppend(request, aborted)) == s.(refusals := s.refusals + [s.cause.value])
  {
    hide PermitsOk, SendersOk, WireOk, OriginOk, FramesOk, WriterOk, IdsOk, SettledOk, StreamsOk, SlotsOk;
    hide Heard, InboundOk, Tracked, After, Register, CancelUnary, StartSender;
    AfterKeeps(cfg, token, events);
    DeadAlready(After(cfg, token, events), e);
  }

  /**
   * Death is total. Whatever turn kills the connection, and whatever else it routed, afterwards the
   * table is empty, and each request that was in it has its end: what a response that ended it says, or
   * else the cause of death, after exactly the items of the responses it heard.
   */
  lemma DeathTellsEveryone(cfg: Config, token: Option<bytes>, events: seq<Event>, ev: Event, id: nat)
    requires var s := After(cfg, token, events); !s.dead && Step(s, ev).dead && id in s.pending
    ensures id in After(cfg, token, events).issued
    ensures var s, t := After(cfg, token, events), Step(After(cfg, token, events), ev);
            var request, ks, sink := s.issued[id], Live(t.routed, id), StreamAt(t, id).sink;
            && t.pending == map[] && t.cause.Some?
            && if IsCall(s.pending[id].kind)
               then Promise(t, id) == [if ks == [] then Rejected(t.cause.value) else Reaction(request, ks[0])]
               else
                 && sink.done && sink.Accepted() == ItemsOf(request, ks)
                 && if ks == [] || Continues(request, ks[|ks| - 1]) then sink.Terminal() == Failed(t.cause.value)
                    else
                      sink.Terminal() == Verdict(request, ks[|ks| - 1])
                      || (Violates(request, ks[|ks| - 1]) && cfg.maxFrameLen < CANCEL_LEN && CancelThrew(t.cause)
                          && sink.Terminal() == Failed(t.cause.value))
  {
    hide Core, Heard, InboundOk, Tracked, After, Step, Live, SinkState.Accepted, SinkState.Terminal, Later, Told, Took;
    hide NotEnded, Violates, Verdict, CancelThrew, Continues, ItemsOf, Reaction;
    var s, t := After(cfg, token, events), Step(After(cfg, token, events), ev);
    AfterKeeps(cfg, token, events);
    DeathIsTotal(s, ev);
    StepCore(s, ev);
    StepHeard(s, ev);
    StepLater(s, ev);
    DeathInFull(s, t, id);
  }

  /** The end of one request, from what it was told and what it heard. */
  lemma DeathInFull(s: State, t: State, id: nat)
    requires Core(s) && Core(t) && Heard(t, {}) && Later(s, t) && Told(s, t) && id in s.pending
    ensures id in s.issued && t.cfg == s.cfg
    ensures var request, ks, st := s.issued[id], Live(t.routed, id), StreamAt(t, id);
            && t.pending == map[] && t.cause.Some?
            && if IsCall(s.pending[id].kind)
               then Promise(t, id) == [if ks == [] then Rejected(t.cause.value) else Reaction(request, ks[0])]
               else
                 && st.sink.done && st.sink.Accepted() == ItemsOf(request, ks)
                 && if ks == [] || Continues(request, ks[|ks| - 1]) then st.sink.Terminal() == Failed(t.cause.value)
                    else EndedBy(st, request, ks[|ks| - 1], t.cfg.maxFrameLen, t.cause)
  {
    hide PermitsOk, SendersOk, WireOk, OriginOk, FramesOk, SlotsOk, WriterOk, DeadOk, SettledOk, StreamsOk, IdsOk;
    hide Heard, Live, SinkState.Accepted, Violates, Verdict, CancelThrew, Continues, Reaction, StreamLater;
    EntryIssued(s, id);
    EntryKnown(s, id);
    HeardHere(t, id);
  }

  /**
   * What becomes of a stream opened after death, exactly. If a permit was left, then whenever the runtime
   * has nothing left to do the table is empty: every late stream has been failed. If every permit was
   * stranded with the entries death dropped, no sender is ever given one again, on any continuation, and
   * a late stream stays in the table, unended, until its user or the peer ends it.
   */
  lemma LateStreamsFailExactly(cfg: Config, token: Option<bytes>, before: seq<Event>, after: seq<Event>)
    requires After(cfg, token, before).dead
    ensures var s, t := After(cfg, token, before), After(cfg, token, before + after);
            if s.stranded < cfg.maxInflight then Idle(t) ==> t.pending == map[]
            else
              && (forall id :: !PermitReady(t, id))
              && (forall id :: id in t.pending ==>
                    id in t.inflight.waiters && id in t.streams && !t.streams[id].sink.done)
  {
    hide PermitsOk, SendersOk, WireOk, OriginOk, FramesOk, WriterOk, IdsOk, SettledOk, StreamsOk, SlotsOk, DeadOk;
    hide Heard, InboundOk, Tracked, Run, TablesLater, WireLater, InputLater, Idle, PermitReady;
    var s, t := After(cfg, token, before), After(cfg, token, before + after);
    AfterKeeps(cfg, token, before);
    AfterKeeps(cfg, token, before + after);
    RunConcat(Connected(cfg, token), before, after);
    RunLater(s, after);
    AllPermits(s);
    if s.stranded < cfg.maxInflight {
      if Idle(t) {
        IdleDeathIsEmpty(t);
      }
    } else {
      AllStranded(t);
      forall id | id in t.pending
        ensures id in t.streams && !t.streams[id].sink.done
      {
        LateWaits(t, id);
      }
    }
  }

  lemma AllPermits(s: State)
    requires Core(s)
    ensures s.stranded <= s.cfg.maxInflight
  {
    hide IdsOk, WireOk, DeadOk, SettledOk, StreamsOk, FramesOk, OriginOk, SendersOk, SlotsOk, WriterOk, PermitIds;
  }

  /** A late stream whose sender is given a permit is failed with the first cause, and leaves the table. */
  lemma LateStreamIsTold(cfg: Config, token: Option<bytes>, events: seq<Event>, id: nat)
    requires var s := After(cfg, token, events); s.dead && id in s.pending && PermitReady(s, id)
    ensures var s, t := After(cfg, token, events), Step(After(cfg, token, events), PermitResumes(id));
            && s.cause.Some? && id !in t.pending && id in t.streams && t.streams[id].sink.done
            && t.streams[id].sink.Terminal() == Failed(s.cause.value)
  {
    hide Core, Heard, InboundOk, Tracked, After, ResumePermit, PermitReady;
    AfterKeeps(cfg, token, events);
    LateStreamFails(After(cfg, token, events), id);
  }

  // ---------------------------------------------------------------------------
  // Nothing is forgotten
  // ---------------------------------------------------------------------------

  /**
   * Once a living connection has no turn of its own left to take, every request in its table has its
   * place: written as it was asked, or in the queue, owning a permit; in line for a slot, and then the
   * queue is full; or in line for a permit, and then entries of the table own all of them. The writer is
   * parked with both queues empty, or awaits the socket. The one kind of entry that can have none is a
   * unary call aborted before it was sent by a cancel that did not fit a frame.
   */
  lemma EveryRequestHasItsPlace(cfg: Config, token: Option<bytes>, events: seq<Event>)
    requires var s := After(cfg, token, events); !s.dead && Idle(s)
    ensures var s := After(cfg, token, events);
            && (forall id :: id in s.pending && Started(s.pending[id].kind, cfg.maxFrameLen) ==> Placed(s, id))
            && (s.slots.waiters != [] ==> |s.wire.outbound| == cfg.queueDepth)
            && (s.inflight.waiters != [] ==> |PermitIds(s.pending)| == cfg.maxInflight)
            && (Quiet(s) || s.writer == Draining)
            && (Quiet(s) ==> s.wire.outbound == [] && s.wire.priority == [])
  {
    hide Core, Heard, InboundOk, Tracked, After, Idle, Placed, Started, PermitIds;
    var s := After(cfg, token, events);
    AfterKeeps(cfg, token, events);
    forall id | id in s.pending && Started(s.pending[id].kind, cfg.maxFrameLen)
      ensures Placed(s, id)
    {
      IdleMeansPlaced(s, id);
    }
    LinesMeanFull(s);
    IdleWriter(s);
    NoneStranded(s);
  }

  lemma NoneStranded(s: State)
    requires Core(s) && !s.dead
    ensures s.stranded == 0
  {
    hide IdsOk, WireOk, DeadOk, SettledOk, StreamsOk, FramesOk, OriginOk, SendersOk, SlotsOk, WriterOk, PermitIds;
  }

  /**
   * With at least one queue slot, a quiet connection has everything on the wire that may be there: each
   * entry has been written and owns a permit, or waits for a budget that written requests use up, and
   * every cancel issued has been written.
   */
  lemma NothingForgotten(cfg: Config, token: Option<bytes>, events: seq<Event>)
    requires cfg.queueDepth >= 1 && Quiet(After(cfg, token, events))
    ensures var s := After(cfg, token, events);
            && s.wire.outbound == [] && s.wire.priority == [] && Select(s.wire.sent, true) == s.wire.cancels
            && (forall id :: id in s.pending && Started(s.pending[id].kind, cfg.maxFrameLen) ==>
                  if s.pending[id].permit then Sent(s, id) else id in s.inflight.waiters)
            && (s.inflight.waiters != [] ==> |PermitIds(s.pending)| == cfg.maxInflight)
  {
    hide Core, Heard, InboundOk, Tracked, After, Select, Sent, PermitIds, Idle, Started;
    var s := After(cfg, token, events);
    AfterKeeps(cfg, token, events);
    EveryRequestHasItsPlace(cfg, token, events);
    CancelsWritten(s);
  }

  /** And it gets there: the runtime takes no more turns on its own than the effort left. */
  lemma OwnTurnsEnd(cfg: Config, token: Option<bytes>, before: seq<Event>, own: seq<Event>)
    requires OwnRun(After(cfg, token, before), own)
    ensures |own| <= Effort(After(cfg, token, before))
  {
    hide Core, Heard, InboundOk, Tracked, After, Effort, OwnRun;
    AfterKeeps(cfg, token, before);
    OwnRunIsBounded(After(cfg, token, before), own);
  }

  // ---------------------------------------------------------------------------
  // What goes wrong when a cancel does not fit
  // ---------------------------------------------------------------------------

  const TINY := Config(1, 1, 1)
  const ANY_READ := CallRead(WireReadRequest(WireQuery(true, []), 0, None, false), false)

  /** With a maximum of one byte, closing a read leaves it closed but never ended, and its entry in the table. */
  lemma TinyFramesStrandAStream(token: Option<bytes>)
    ensures var s := After(TINY, token, [ANY_READ, CloseOfStream(2)]);
            2 in s.pending && 2 in s.streams && s.streams[2].closed && !s.streams[2].sink.done
  {
    hide Core, Heard, InboundOk, Tracked, After, EndStream, EncodedRequest;
    var s := After(TINY, token, [ANY_READ]);
    OneRead(token);
    AfterKeeps(TINY, token, [ANY_READ]);
    CancelNotEmpty(s.idCounter + 1, 2);
    EndStreamExactly(s, 2, None);
    OneMore(TINY, token, [ANY_READ], CloseOfStream(2));
    assert [ANY_READ] + [CloseOfStream(2)] == [ANY_READ, CloseOfStream(2)];
  }

  lemma OneMore(cfg: Config, token: Option<bytes>, events: seq<Event>, ev: Event)
    ensures After(cfg, token, events + [ev]) == Step(After(cfg, token, events), ev)
  {
    hide Step;
    assert (events + [ev])[..|events|] == events;
  }

  lemma OneRead(token: Option<bytes>)
    ensures var s := After(TINY, token, [ANY_READ]);
            2 in s.pending && 2 in s.streams && !s.streams[2].closed && !s.dead && s.cfg == TINY
  {
    hide Step;
    OneMore(TINY, token, [], ANY_READ);
    assert [] + [ANY_READ] == [ANY_READ] && After(TINY, token, []) == Connected(TINY, token);
    ReadOpens(Connected(TINY, token));
    HelloOnly(token);
  }

  lemma HelloOnly(token: Option<bytes>)
    ensures var s := Connected(TINY, token); s.idCounter == 1 && !s.dead && s.cfg == TINY
  {
  }

  lemma ReadOpens(s: State)
    ensures var t, id := Step(s, ANY_READ), s.idCounter + 1;
            id in t.pending && id in t.streams && !t.streams[id].closed && t.dead == s.dead && t.cfg == s.cfg
  {
  }
}
