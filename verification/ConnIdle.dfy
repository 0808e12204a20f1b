/**
 * A connection with no turn of its own left to take. In life every request then has its place: on the
 * wire, in the queue, or in one of the two lines, behind a budget that is used up. In death the table is
 * empty, unless all permits were stranded.
 */
module ConnIdle {
  import Messages
  import Streams
  import opened ConnState
  import opened ConnInv
  import opened ConnProgress

  ghost predicate Idle(s: State) {
    forall ev :: !Enabled(s, ev)
  }

  /** Alive and idle, with no drain awaited. */
  ghost predicate Quiet(s: State) {
    !s.dead && Idle(s) && s.writer == Parked
  }

  /** Written to the socket, as it was asked. */
  ghost predicate Sent(s: State, id: nat) {
    exists i :: 0 <= i < |s.wire.sent| && s.wire.sent[i].requestId == id
                && id in s.issued && s.wire.sent[i].kind == s.issued[id]
  }

  /** In the outbound queue, not yet written. */
  ghost predicate InQueue(s: State, id: nat) {
    exists i :: 0 <= |s.wire.ordinary| - |s.wire.outbound| <= i < |s.wire.ordinary|
        && s.wire.ordinary[i].requestId == id
  }

  lemma GrantedResumes(s: State, t: nat)
    requires Core(s)
    ensures t in s.inflight.granted ==> Enabled(s, PermitResumes(t))
    ensures t in s.slots.granted ==> Enabled(s, SlotResumes(t))
  {
    hide IdsOk, WireOk, DeadOk, SettledOk, StreamsOk, FramesOk, OriginOk, PermitsOk, SlotsOk, WriterOk;
    assert t in s.inflight.granted ==> s.inflight.Holds(t);
    assert t in s.slots.granted ==> s.slots.Holds(t);
  }

  lemma NothingGranted(s: State)
    requires Core(s) && Idle(s)
    ensures s.inflight.granted == {} && s.slots.granted == {}
  {
    hide Core, Enabled;
    forall t: nat
      ensures t !in s.inflight.granted && t !in s.slots.granted
    {
      GrantedResumes(s, t);
    }
  }

  /** Idle, every sender stands in the line it waits in. */
  lemma SendersInLine(s: State, id: nat)
    requires Core(s) && Idle(s) && id in s.senders
    ensures if s.senders[id].AwaitPermit? then id in s.inflight.waiters else id in s.slots.waiters
    ensures s.senders[id].AwaitPermit? && id in s.pending ==> !s.pending[id].permit
  {
    hide IdsOk, WireOk, DeadOk, SettledOk, StreamsOk, FramesOk, OriginOk, PermitsOk, SlotsOk, WriterOk, Idle;
    NothingGranted(s);
    assert s.senders[id].AwaitPermit? ==> s.inflight.Holds(id);
    assert s.senders[id].AwaitSlot? ==> s.slots.Holds(id);
  }

  /** Idle, nobody stands in a line while anything is free. */
  lemma LinesMeanFull(s: State)
    requires Core(s) && Idle(s)
    ensures s.inflight.waiters != [] ==> |PermitIds(s.pending)| + s.stranded == s.cfg.maxInflight
    ensures s.slots.waiters != [] ==> !s.dead && |s.wire.outbound| == s.cfg.queueDepth
  {
    hide IdsOk, WireOk, DeadOk, SettledOk, StreamsOk, FramesOk, OriginOk, WriterOk, Idle, PermitIds;
    NothingGranted(s);
  }

  /** A living writer with nothing to do is parked with nothing queued, or awaits the socket. */
  lemma IdleWriter(s: State)
    requires Core(s) && !s.dead && Idle(s)
    ensures Quiet(s) || s.writer == Draining
    ensures Quiet(s) ==> s.wire.outbound == [] && s.wire.priority == []
  {
    hide IdsOk, WireOk, DeadOk, SettledOk, StreamsOk, FramesOk, OriginOk, PermitsOk, SlotsOk, SendersOk;
    assert !Enabled(s, WriterResumes(Flushed));
  }

  lemma {:induction false} SelectMember(requests: seq<Messages.WireRequest>, cancels: bool, i: nat) returns (j: nat)
    requires i < |Select(requests, cancels)|
    ensures j < |requests| && requests[j] == Select(requests, cancels)[i]
  {
    var init := requests[..|requests| - 1];
    if i < |Select(init, cancels)| {
      j := SelectMember(init, cancels, i);
    } else {
      j := |requests| - 1;
    }
  }

  /** In life what was queued is on the wire or still in the queue. */
  lemma QueuedIsPlaced(s: State, id: nat)
    requires Core(s) && !s.dead && Queued(s.wire.ordinary, id)
    ensures Sent(s, id) || InQueue(s, id)
  {
    hide IdsOk, DeadOk, SettledOk, StreamsOk, FramesOk, PermitsOk, SlotsOk, SendersOk, WriterOk, Select, FramesOf;
    hide BodiesOf;
    var w := s.wire;
    var i :| 0 <= i < |w.ordinary| && w.ordinary[i].requestId == id;
    if i < |w.ordinary| - |w.outbound| {
      assert Select(w.sent, false)[i] == w.ordinary[i];
      var j := SelectMember(w.sent, false, i);
      assert w.sent[j].requestId == id;
    }
  }

  lemma CancelsWritten(s: State)
    requires Core(s) && !s.dead && s.wire.priority == []
    ensures Select(s.wire.sent, true) == s.wire.cancels
  {
    hide IdsOk, DeadOk, SettledOk, StreamsOk, FramesOk, OriginOk, PermitsOk, SlotsOk, SendersOk, WriterOk, FramesOf;
    hide BodiesOf, Select;
    var w := s.wire;
    assert w.cancels[..|w.cancels| - 0] == w.cancels;
  }

  /** Where the request of an entry is when a living connection is idle. */
  ghost predicate Placed(s: State, id: nat)
    requires id in s.pending
  {
    if id !in s.senders then s.pending[id].permit && (Sent(s, id) || InQueue(s, id))
    else if s.senders[id].AwaitSlot? then s.pending[id].permit && id in s.slots.waiters
    else !s.pending[id].permit && id in s.inflight.waiters
  }

  lemma IdleMeansPlaced(s: State, id: nat)
    requires Core(s) && Tracked(s) && !s.dead && Idle(s)
    requires id in s.pending && Started(s.pending[id].kind, s.cfg.maxFrameLen)
    ensures Placed(s, id)
  {
    hide Core, Idle, Sent, InQueue, Queued, ClosedOk;
    if id in s.senders {
      SendersInLine(s, id);
    } else {
      QueuedIsPlaced(s, id);
    }
  }

  // ---------------------------------------------------------------------------
  // After death
  // ---------------------------------------------------------------------------

  /** A late entry still has its sender, and that waits for a permit. */
  lemma LateWaits(s: State, id: nat)
    requires Core(s) && Tracked(s) && s.dead && id in s.pending
    ensures id in s.senders && s.senders[id].AwaitPermit? && s.inflight.Holds(id)
    ensures id in s.streams && !s.streams[id].sink.done
  {
    hide WireOk, SettledOk, FramesOk, OriginOk, SlotsOk, WriterOk, Queued, ClosedOk;
    assert !s.pending[id].permit by { NoPermitInDeath(s, id); }
    EntryKnown(s, id);
  }

  lemma NoPermitInDeath(s: State, id: nat)
    requires Core(s) && s.dead && id in s.pending
    ensures !s.pending[id].permit
  {
    hide IdsOk, WireOk, DeadOk, SettledOk, StreamsOk, FramesOk, OriginOk, SendersOk, SlotsOk, WriterOk;
    assert id !in PermitIds(s.pending);
  }

  /** With every permit stranded none is ever granted again, so what is in the table waits. */
  lemma AllStranded(s: State)
    requires Core(s) && Tracked(s) && s.dead && s.stranded == s.cfg.maxInflight
    ensures forall id :: !PermitReady(s, id)
    ensures forall id :: id in s.pending ==> id in s.inflight.waiters
  {
    hide IdsOk, WireOk, DeadOk, SettledOk, StreamsOk, FramesOk, OriginOk, SendersOk, SlotsOk, WriterOk, SentOk,
        ClosedOk;
    assert s.inflight.granted == {};
    forall id | id in s.pending
      ensures id in s.inflight.waiters
    {
      LateWaits(s, id);
    }
  }

  /** A late stream that gets its permit is failed with the cause of death and leaves the table. */
  lemma LateStreamFails(s: State, id: nat)
    requires Core(s) && Tracked(s) && s.dead && id in s.pending && PermitReady(s, id)
    ensures var t := ResumePermit(s, id);
            && s.cause.Some? && id !in t.pending && id in t.streams && t.streams[id].sink.done
            && t.streams[id].sink.Terminal() == Streams.Failed(s.cause.value)
  {
    hide IdsOk, WireOk, SettledOk, StreamsOk, FramesOk, OriginOk, SendersOk, SlotsOk, WriterOk, SentOk, ClosedOk;
    hide PermitsOk, Finalize, Messages.EncodedRequest, Streams.SinkState.Accepted;
    LateWaits(s, id);
    assert !IsCall(s.pending[id].kind);
    FinalizeKeeps(Abandon(s, id), id);
  }

  /** Idle in death, the table is empty, unless every permit is stranded. */
  lemma IdleDeathIsEmpty(s: State)
    requires Core(s) && Tracked(s) && s.dead && Idle(s)
    ensures s.pending != map[] ==> s.stranded == s.cfg.maxInflight
  {
    hide Core, Idle, SentOk, ClosedOk, PermitIds;
    if id :| id in s.pending {
      LateWaits(s, id);
      SendersInLine(s, id);
      LinesMeanFull(s);
      NoPermits(s);
    }
  }

  lemma NoPermits(s: State)
    requires Core(s) && s.dead
    ensures PermitIds(s.pending) == {}
  {
    hide IdsOk, WireOk, DeadOk, SettledOk, StreamsOk, FramesOk, OriginOk, SendersOk, SlotsOk, WriterOk, PermitIds;
  }
}
