/** The push queue behind a streaming result, and the stream's own lifecycle. */
module Streams {
  import opened Base
  import opened Errors

  /** How a call of `next` settled. */
  datatype Answer<T> = Item(value: T) | Ended | Failed(error: Error)

  /**
   * `settled` holds the answers of `next` calls in order; `waiting` says one more call is parked, and
   * `refused` counts the calls rejected because another was already parked.
   */
  datatype SinkState<T> =
    SinkState(queue: seq<T>, error: Option<Error>, done: bool, waiting: bool, settled: seq<Answer<T>>, refused: nat)
  {
    function Push(item: T): SinkState<T> {
      if done then this
      else if waiting then this.(waiting := false, settled := settled + [Item(item)])
      else this.(queue := queue + [item])
    }

    function Finish(): SinkState<T> {
      if done then this
      else this.(done := true, waiting := false, settled := if waiting then settled + [Ended] else settled)
    }

    function Fail(e: Error): SinkState<T> {
      if done then this
      else this.(done := true, error := Some(e), waiting := false,
                 settled := if waiting then settled + [Failed(e)] else settled)
    }

    /** What a call that finds the queue empty and the sink done observes. */
    function Terminal(): Answer<T> {
      if error.Some? then Failed(error.value) else Ended
    }

    function Next(): SinkState<T> {
      if queue != [] then this.(queue := queue[1..], settled := settled + [Item(queue[0])])
      else if done then this.(settled := settled + [Terminal()])
      else if waiting then this.(refused := refused + 1)
      else this.(waiting := true)
    }

    /** Every item the sink took: those handed to the consumer, then those still buffered. */
    function Accepted(): seq<T> {
      Values(settled) + queue
    }

    ghost predicate Valid() {
      && (waiting ==> queue == [] && !done)
      && (error.Some? ==> done)
    }
  }

  function NewSink<T>(): SinkState<T> {
    SinkState([], None, false, false, [], 0)
  }

  function Values<T>(answers: seq<Answer<T>>): seq<T> {
    if answers == [] then []
    else
      var last := answers[|answers| - 1];
      Values(answers[..|answers| - 1]) + if last.Item? then [last.value] else []
  }

  lemma ValuesSnoc<T>(answers: seq<Answer<T>>, a: Answer<T>)
    ensures Values(answers + [a]) == Values(answers) + if a.Item? then [a.value] else []
  {
    assert (answers + [a])[..|answers|] == answers;
  }

  /** An open sink takes an item at the end; a done one drops it; nothing else changes what was taken. */
  lemma {:induction false} AcceptedAfter<T>(s: SinkState<T>, item: T, e: Error)
    requires s.Valid()
    ensures s.Push(item).Valid() && s.Finish().Valid() && s.Fail(e).Valid() && s.Next().Valid()
    ensures s.Push(item).Accepted() == if s.done then s.Accepted() else s.Accepted() + [item]
    ensures s.Finish().Accepted() == s.Accepted()
    ensures s.Fail(e).Accepted() == s.Accepted()
    ensures s.Next().Accepted() == s.Accepted()
  {
    hide Values;
    ValuesSnoc(s.settled, Item(item));
    ValuesSnoc(s.settled, Ended);
    ValuesSnoc(s.settled, Failed(e));
    ValuesSnoc(s.settled, s.Terminal());
    assert Values(s.settled) + [] == Values(s.settled);
    assert Values(s.settled) + (s.queue + [item]) == Values(s.settled) + s.queue + [item];
    if s.queue != [] {
      ValuesSnoc(s.settled, Item(s.queue[0]));
      assert Values(s.settled) + [s.queue[0]] + s.queue[1..] == Values(s.settled) + s.queue;
    }
  }

  // ---------------------------------------------------------------------------
  // One FIFO followed by the first terminal outcome
  // ---------------------------------------------------------------------------

  datatype SinkOp<T> = PushOp(item: T) | FinishOp | FailOp(e: Error) | NextOp

  function SinkStep<T>(s: SinkState<T>, op: SinkOp<T>): SinkState<T> {
    match op
    case PushOp(item) => s.Push(item)
    case FinishOp => s.Finish()
    case FailOp(e) => s.Fail(e)
    case NextOp => s.Next()
  }

  function RunSink<T>(ops: seq<SinkOp<T>>): SinkState<T> {
    if ops == [] then NewSink() else SinkStep(RunSink(ops[..|ops| - 1]), ops[|ops| - 1])
  }

  /** The first terminal operation of a trace, as the answer it gives. */
  function Outcome<T>(ops: seq<SinkOp<T>>): Option<Answer<T>> {
    if ops == [] then None
    else
      var before, op := Outcome(ops[..|ops| - 1]), ops[|ops| - 1];
      if before.Some? then before
      else if op.FinishOp? then Some(Ended)
      else if op.FailOp? then Some(Failed(op.e))
      else None
  }

  /** The items pushed before the first terminal operation. */
  function Pushed<T>(ops: seq<SinkOp<T>>): seq<T> {
    if ops == [] then []
    else
      var init, op := ops[..|ops| - 1], ops[|ops| - 1];
      Pushed(init) + if op.PushOp? && Outcome(init).None? then [op.item] else []
  }

  function Calls<T>(ops: seq<SinkOp<T>>): nat {
    if ops == [] then 0 else Calls(ops[..|ops| - 1]) + if ops[|ops| - 1].NextOp? then 1 else 0
  }

  /** The state of the sink after a trace, in terms of the trace alone. */
  ghost predicate Refines<T>(s: SinkState<T>, pushed: seq<T>, outcome: Option<Answer<T>>, calls: nat) {
    && s.Valid()
    && (s.done <==> outcome.Some?)
    && (s.done ==> outcome == Some(s.Terminal()))
    && s.queue == pushed[Min(|s.settled|, |pushed|)..]
    && (|s.settled| > |pushed| ==> s.done)
    && (s.waiting ==> |s.settled| == |pushed|)
    && calls == |s.settled| + s.refused + (if s.waiting then 1 else 0)
    && forall k :: 0 <= k < |s.settled| ==>
         s.settled[k] == if k < |pushed| then Item(pushed[k]) else s.Terminal()
  }

  lemma RefinesStep<T>(s: SinkState<T>, pushed: seq<T>, outcome: Option<Answer<T>>, calls: nat, op: SinkOp<T>)
    requires Refines(s, pushed, outcome, calls)
    ensures Refines(SinkStep(s, op),
                    pushed + (if op.PushOp? && outcome.None? then [op.item] else []),
                    if outcome.Some? then outcome
                    else if op.FinishOp? then Some(Ended)
                    else if op.FailOp? then Some(Failed(op.e)) else None,
                    calls + if op.NextOp? then 1 else 0)
  {
    assert pushed + [] == pushed;
    match op
    case PushOp(item) =>
      if !s.done && !s.waiting {
        assert (pushed + [item])[|s.settled|..] == pushed[|s.settled|..] + [item];
      }
    case NextOp =>
      if s.queue != [] {
        assert s.queue[0] == pushed[|s.settled|] && s.queue[1..] == pushed[|s.settled| + 1..];
      }
    case _ =>
  }

  lemma NothingYet<T>()
    ensures Refines<T>(NewSink(), [], None, 0)
  {
  }

  /**
   * Over every trace of pushes, terminations and reads, the k-th accepted `next` gets the k-th item
   * pushed before the first termination, and after those the first termination's outcome; the queue
   * holds exactly the items not yet handed over; at most one call is parked, only while the queue is
   * empty and nothing has terminated; every call is settled, refused or parked.
   */
  lemma {:induction false} SinkIsFifoThenOutcome<T>(ops: seq<SinkOp<T>>)
    ensures Refines(RunSink(ops), Pushed(ops), Outcome(ops), Calls(ops))
  {
    hide SinkStep, Refines;
    if ops == [] {
      assert Refines<T>(NewSink(), [], None, 0) by { NothingYet<T>(); }
    } else {
      var init := ops[..|ops| - 1];
      SinkIsFifoThenOutcome(init);
      RefinesStep(RunSink(init), Pushed(init), Outcome(init), Calls(init), ops[|ops| - 1]);
    }
  }

  /** What a sink has done so far is what its items and its outcome call for. */
  ghost predicate InOrder<T>(s: SinkState<T>) {
    Refines(s, s.Accepted(), if s.done then Some(s.Terminal()) else None,
            |s.settled| + s.refused + if s.waiting then 1 else 0)
  }

  lemma NewInOrder<T>()
    ensures InOrder<T>(NewSink())
  {
  }

  /** So it stays, whichever of its operations is next. */
  lemma StaysInOrder<T>(s: SinkState<T>, item: T, e: Error)
    requires InOrder(s)
    ensures InOrder(s.Push(item)) && InOrder(s.Finish()) && InOrder(s.Fail(e)) && InOrder(s.Next())
  {
    hide SinkState.Accepted;
    var outcome: Option<Answer<T>> := if s.done then Some(s.Terminal()) else None;
    var calls := |s.settled| + s.refused + if s.waiting then 1 else 0;
    AcceptedAfter(s, item, e);
    assert s.Accepted() + [] == s.Accepted();
    RefinesStep(s, s.Accepted(), outcome, calls, PushOp(item));
    RefinesStep(s, s.Accepted(), outcome, calls, FinishOp);
    RefinesStep(s, s.Accepted(), outcome, calls, FailOp(e));
    RefinesStep(s, s.Accepted(), outcome, calls, NextOp);
  }

  // ---------------------------------------------------------------------------
  // The stream around the sink
  // ---------------------------------------------------------------------------

  /** `cancels` counts the invocations of `onCancel`; `listening` says an abort listener is attached. */
  datatype StreamState<T> =
    StreamState(sink: SinkState<T>, closed: bool, listening: bool, cancels: nat, watermark: Option<int>)
  {
    function MarkClosed(): StreamState<T> {
      this.(closed := true, listening := false)
    }

    function Deliver(item: T): StreamState<T> {
      this.(sink := sink.Push(item))
    }

    function FailWith(e: Error): StreamState<T> {
      MarkClosed().(sink := sink.Fail(e))
    }

    function EndWith(w: int): StreamState<T> {
      MarkClosed().(sink := sink.Finish(), watermark := Some(w))
    }

    /** The part of `onAbort` and `close` up to and including the call of `onCancel`. */
    function StartCancel(): StreamState<T> {
      MarkClosed().(cancels := cancels + 1)
    }

    function Next(): StreamState<T> {
      this.(sink := sink.Next())
    }

    ghost predicate Valid() {
      && sink.Valid()
      && (closed ==> !listening)
      && cancels <= 1
      && (cancels == 1 ==> closed)
      && (sink.done ==> closed)
      && (watermark.Some? ==> sink.done)
    }
  }

  function NewStream<T>(listening: bool): StreamState<T> {
    StreamState(NewSink(), false, listening, 0, None)
  }

  // ---------------------------------------------------------------------------
  // The code
  // ---------------------------------------------------------------------------

  class Sink<T> {
    var queue: seq<T>
    var terminalError: Option<Error>
    var done: bool
    var waiting: bool
    /** The promises of `next` that have settled, and how many were rejected as a second iteration. */
    var settled: seq<Answer<T>>
    var refused: nat

    ghost function Value(): SinkState<T>
      reads this
    {
      SinkState(queue, terminalError, done, waiting, settled, refused)
    }

    constructor ()
      ensures Value() == NewSink()
    {
      queue, terminalError, done, waiting, settled, refused := [], None, false, false, [], 0;
    }

    method Push(item: T)
      modifies this
      ensures Value() == old(Value()).Push(item)
    {
      if done {
        return;
      }
      if waiting {
        waiting := false;
        settled := settled + [Item(item)];
      } else {
        queue := queue + [item];
      }
    }

    method Finish()
      modifies this
      ensures Value() == old(Value()).Finish()
    {
      if done {
        return;
      }
      done := true;
      if waiting {
        waiting := false;
        settled := settled + [Ended];
      }
    }

    method Fail(e: Error)
      modifies this
      ensures Value() == old(Value()).Fail(e)
    {
      if done {
        return;
      }
      terminalError := Some(e);
      done := true;
      if waiting {
        waiting := false;
        settled := settled + [Failed(e)];
      }
    }

    method Next()
      modifies this
      ensures Value() == old(Value()).Next()
    {
      if |queue| > 0 {
        settled := settled + [Item(queue[0])];
        queue := queue[1..];
        return;
      }
      if done {
        settled := settled + [if terminalError.Some? then Failed(terminalError.value) else Ended];
        return;
      }
      if waiting {
        refused := refused + 1;
        return;
      }
      waiting := true;
    }
  }

  /** `ReadStream` and `SubscribeStream`: the latter never gets a watermark. */
  class Stream<T> {
    const sink: Sink<T>
    var closed: bool
    var listening: bool
    var cancels: nat
    var watermark: Option<int>

    ghost function Value(): StreamState<T>
      reads this, sink
    {
      StreamState(sink.Value(), closed, listening, cancels, watermark)
    }

    constructor (listening: bool)
      ensures Value() == NewStream(listening) && fresh(sink)
    {
      sink := new Sink();
      closed, this.listening, cancels, watermark := false, listening, 0, None;
    }

    method MarkClosed()
      modifies this
      ensures Value() == old(Value()).MarkClosed()
    {
      closed := true;
      listening := false;
    }

    method DeliverItem(item: T)
      modifies sink
      ensures Value() == old(Value()).Deliver(item)
    {
      sink.Push(item);
    }

    method FailWith(e: Error)
      modifies this, sink
      ensures Value() == old(Value()).FailWith(e)
    {
      MarkClosed();
      sink.Fail(e);
    }

    method EndWith(w: int)
      modifies this, sink
      ensures Value() == old(Value()).EndWith(w)
    {
      watermark := Some(w);
      MarkClosed();
      sink.Finish();
    }

    /** `onAbort` and `close` up to the call of `onCancel`; `call` says that it is made. */
    method StartCancel() returns (call: bool)
      modifies this
      ensures call == !old(closed)
      ensures Value() == if call then old(Value()).StartCancel() else old(Value())
    {
      if closed {
        return false;
      }
      MarkClosed();
      cancels := cancels + 1;
      return true;
    }

    method Next()
      modifies sink
      ensures Value() == old(Value()).Next()
    {
      sink.Next();
    }
  }
}
