/** The order of the wire: when a cancel goes ahead of the request it cancels, and when nothing goes at all. */
module ConnWire {
  import opened Base
  import opened Messages
  import opened Framing
  import opened Errors
  import opened ConnState
  import opened ConnInv
  import opened ConnOrder
  import opened ConnInbound

  // ---------------------------------------------------------------------------
  // Which turns queue, and which write
  // ---------------------------------------------------------------------------

  /** Either nothing was written, or the whole of both queues, the cancels first. */
  predicate Wrote(s: State, t: State) {
    t.wire.sent == s.wire.sent || (!s.dead && t.wire.sent == s.wire.sent + Batch(s.wire))
  }

  lemma RunWriterWrites(s: State, result: WriteResult)
    ensures var t := RunWriter(s, result); Wrote(s, t) && t.wire.ordinary == s.wire.ordinary
  {
    hide FailConnection, AwaitGate, Batch, Flatten, ReleaseTimes;
    AwaitGateDeaf(s);
    AwaitGateDeaf(Written(s));
    FailConnectionDeaf(Emptied(s).(writer := Over), ConnError(WriteFailed(WriteException)));
  }

  lemma ResumeWriterWrites(s: State, result: WriteResult)
    ensures var t := ResumeWriter(s, result); Wrote(s, t) && t.wire.ordinary == s.wire.ordinary
  {
    hide FailConnection, RunWriter, Batch;
    RunWriterWrites(s, result);
    FailConnectionDeaf(s.(writer := Over), ConnError(WriteFailed(DeadError(s))));
  }

  lemma ResumeSlotQueues(s: State, id: nat)
    requires SlotReady(s, id)
    ensures ResumeSlot(s, id).wire.sent == s.wire.sent
    ensures s.dead ==> ResumeSlot(s, id).wire.ordinary == s.wire.ordinary
  {
    hide FailEntry;
    FailEntryDeaf(s.(slots := s.slots.Resume(id).Release(), senders := s.senders - {id}), id, DeadError(s));
  }

  lemma OnDataQuiet(s: State, chunk: bytes)
    requires Core(s)
    ensures Unwritten(s, OnData(s, chunk))
  {
    hide IdsOk, WireOk, DeadOk, SettledOk, StreamsOk, FramesOk, OriginOk, SendersOk, PermitsOk, SlotsOk, WriterOk;
    hide RouteAll, FailConnection, PushResult;
    var push := PushResult(s.cfg.maxFrameLen, s.buffer, chunk);
    var s1 := s.(buffer := push.1, received := s.received + chunk);
    match push.0
    case Err(e) => FailConnectionDeaf(s1, ConnError(FramingFailed(FrameError(e))));
    case Ok(bodies) => RouteAllDecodes(s1, bodies);
  }

  lemma OwnWrites(s: State, ev: Event)
    requires Core(s) && !Opens(ev) && !Touches(ev)
    ensures Wrote(s, Step(s, ev))
    ensures Step(s, ev).wire.ordinary == s.wire.ordinary || (ev.SlotResumes? && SlotReady(s, ev.id) && !s.dead)
  {
    hide Core, ResumePermit, ResumeSlot, ResumeWriter, Batch, FailConnection, OnData, PermitReady, SlotReady;
    match ev
    case PermitResumes(id) => if PermitReady(s, id) { ResumePermitDeaf(s, id); }
    case SlotResumes(id) => if SlotReady(s, id) { ResumeSlotQueues(s, id); }
    case WriterResumes(result) => ResumeWriterWrites(s, result);
    case Drained =>
    case SocketError => FailConnectionDeaf(s, ConnError(SocketFailed));
    case SocketClosed => FailConnectionDeaf(s, ConnError(Closed));
    case CloseConnection => FailConnectionDeaf(s, ConnError(Closed));
    case Data(chunk) => OnDataQuiet(s, chunk);
  }

  /** Only a sender resuming with a slot, alive, queues a request; only the writer writes, and then everything. */
  lemma StepWrites(s: State, ev: Event)
    requires Core(s)
    ensures Wrote(s, Step(s, ev))
    ensures Step(s, ev).wire.ordinary == s.wire.ordinary || (ev.SlotResumes? && SlotReady(s, ev.id) && !s.dead)
  {
    hide Core, Step, SlotReady, Batch;
    if Opens(ev) {
      CallDeaf(s, ev);
    } else if Touches(ev) {
      CallerDeaf(s, ev);
    } else {
      OwnWrites(s, ev);
    }
  }

  // ---------------------------------------------------------------------------
  // A cancel and its request
  // ---------------------------------------------------------------------------

  /** Every appearance of `r` has one of `c` before it. */
  ghost predicate Leads(sent: seq<WireRequest>, c: WireRequest, r: WireRequest) {
    forall j :: 0 <= j < |sent| && sent[j] == r ==> c in sent[..j]
  }

  lemma LeadsOn(sent: seq<WireRequest>, more: seq<WireRequest>, c: WireRequest, r: WireRequest)
    requires Leads(sent, c, r) && (c in sent || Leads(more, c, r))
    ensures Leads(sent + more, c, r)
  {
    forall j | 0 <= j < |sent + more| && (sent + more)[j] == r
      ensures c in (sent + more)[..j]
    {
      if j < |sent| {
        assert (sent + more)[..j] == sent[..j];
      } else {
        assert (sent + more)[..j] == sent + more[..j - |sent|];
      }
    }
  }

  /** A cancel not yet written is at the front of the next batch, ahead of every ordinary request. */
  lemma BatchLeads(s: State, c: WireRequest, r: WireRequest)
    requires Core(s) && !s.dead && c in s.wire.cancels && c !in s.wire.sent && !r.kind.CancelRequest?
    ensures Leads(Batch(s.wire), c, r)
  {
    hide IdsOk, DeadOk, SettledOk, StreamsOk, FramesOk, OriginOk, PermitsOk, SlotsOk, SendersOk, WriterOk, FramesOf;
    hide BodiesOf, Framed, ConnInv.Fits, LastN;
    var w := s.wire;
    var n := |w.cancels| - |w.priority|;
    var cs, os := LastN(w.cancels, |w.priority|), LastN(w.ordinary, |w.outbound|);
    LastNIsTail(w.cancels, |w.priority|);
    LastNIsTail(w.ordinary, |w.outbound|);
    assert Select(w.sent, true) == w.cancels[..n];
    SelectSubset(w.sent, true, c);
    assert w.cancels == w.cancels[..n] + w.cancels[n..];
    assert c in cs;
    assert forall x <- cs :: x in w.cancels && x != r;
    forall j | 0 <= j < |cs + os| && (cs + os)[j] == r
      ensures c in (cs + os)[..j]
    {
      if j < |cs| {
        assert false;
      } else {
        assert (cs + os)[..j] == cs + os[..j - |cs|];
      }
    }
  }

  lemma LastNIsTail<T>(xs: seq<T>, n: nat)
    requires n <= |xs|
    ensures LastN(xs, n) == xs[|xs| - n..]
  {
  }

  lemma {:induction false} SelectSubset(requests: seq<WireRequest>, cancels: bool, r: WireRequest)
    ensures r in Select(requests, cancels) ==> r in requests
  {
    if requests != [] {
      SelectSubset(requests[..|requests| - 1], cancels, r);
      assert requests == requests[..|requests| - 1] + [requests[|requests| - 1]];
    }
  }

  lemma CancelsLater(s: State, t: State, c: WireRequest)
    requires Later(s, t) && c in s.wire.cancels
    ensures c in t.wire.cancels
  {
  }

  lemma {:induction false} RunLeads(s: State, events: seq<Event>, c: WireRequest, r: WireRequest)
    requires Core(s) && c in s.wire.cancels && !r.kind.CancelRequest? && Leads(s.wire.sent, c, r)
    ensures Leads(Run(s, events).wire.sent, c, r)
  {
    hide Core, Step, Later, Leads, Batch;
    if events != [] {
      var init, last := events[..|events| - 1], events[|events| - 1];
      var t := Run(s, init);
      RunLeads(s, init, c, r);
      RunCore(s, init);
      RunLater(s, init);
      CancelsLater(s, t, c);
      StepWrites(t, last);
      if Step(t, last).wire.sent != t.wire.sent {
        if c !in t.wire.sent {
          BatchLeads(t, c, r);
        }
        LeadsOn(t.wire.sent, Batch(t.wire), c, r);
      }
    }
  }

  // ---------------------------------------------------------------------------
  // No slot
  // ---------------------------------------------------------------------------

  lemma NoSlotNoneReady(s: State, id: nat)
    requires Core(s) && !s.dead && s.cfg.queueDepth == 0
    ensures !SlotReady(s, id)
  {
    hide IdsOk, WireOk, DeadOk, SettledOk, StreamsOk, FramesOk, OriginOk, PermitsOk, SendersOk, WriterOk;
    assert s.slots.granted == {};
  }

  lemma {:induction false} RunNoSlot(s: State, events: seq<Event>)
    requires Core(s) && s.cfg.queueDepth == 0
    ensures Run(s, events).wire.ordinary == s.wire.ordinary && Run(s, events).cfg == s.cfg
  {
    hide Core, Step, TablesLater, WireLater, DeathLater, SlotReady;
    if events != [] {
      var init, last := events[..|events| - 1], events[|events| - 1];
      var t := Run(s, init);
      RunNoSlot(s, init);
      RunCore(s, init);
      StepWrites(t, last);
      StepLater(t, last);
      if last.SlotResumes? && !t.dead {
        NoSlotNoneReady(t, last.id);
      }
    }
  }
}
