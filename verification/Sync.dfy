/**
 * The async primitives. A promise is named by a ticket; `granted` holds the tickets whose promise has
 * been resolved and whose continuation has not run yet. JavaScript runs that continuation in some
 * later turn, so a resolved promise is only a ticket here.
 */
module Sync {
  import opened Base

  datatype Sem = Sem(permits: nat, waiters: seq<nat>, granted: set<nat>) {

    function Acquire(ticket: nat): Sem {
      if permits > 0 then Sem(permits - 1, waiters, granted + {ticket})
      else Sem(permits, waiters + [ticket], granted)
    }

    function Release(): Sem {
      if waiters != [] then Sem(permits, waiters[1..], granted + {waiters[0]})
      else Sem(permits + 1, waiters, granted)
    }

    /** The continuation of a granted acquire runs. */
    function Resume(ticket: nat): Sem {
      Sem(permits, waiters, granted - {ticket})
    }

    /** Wakes every waiter without giving any of them a permit. */
    function Drain(): Sem {
      Sem(permits, [], granted + set t | t in waiters)
    }

    /** Tickets are waiting once, not yet granted, and nobody waits while a permit is free. */
    ghost predicate Valid() {
      && (waiters != [] ==> permits == 0)
      && (forall i, j :: 0 <= i < j < |waiters| ==> waiters[i] != waiters[j])
      && (forall t <- waiters :: t !in granted)
    }

    /** A ticket is outstanding while its acquire has not been resumed. */
    ghost predicate Holds(ticket: nat) {
      ticket in waiters || ticket in granted
    }

    /** Permits free or handed out and not yet picked up. */
    function Available(): nat {
      permits + |granted|
    }
  }

  lemma AcquireValid(s: Sem, ticket: nat)
    requires s.Valid() && !s.Holds(ticket)
    ensures s.Acquire(ticket).Valid() && s.Acquire(ticket).Available() == s.Available()
    ensures forall t :: s.Acquire(ticket).Holds(t) <==> s.Holds(t) || t == ticket
  {
  }

  lemma ReleaseValid(s: Sem)
    requires s.Valid()
    ensures s.Release().Valid() && s.Release().Available() == s.Available() + 1
    ensures forall t :: s.Release().Holds(t) <==> s.Holds(t)
  {
    if s.waiters != [] {
      var w := s.waiters[0];
      assert s.waiters == [w] + s.waiters[1..];
      assert forall t <- s.waiters[1..] :: t in s.waiters;
      assert w !in s.granted && s.Release().granted == s.granted + {w};
      forall t
        ensures s.Release().Holds(t) <==> s.Holds(t)
      {
        assert t in s.waiters <==> t == w || t in s.waiters[1..];
      }
    }
  }

  lemma ResumeValid(s: Sem, ticket: nat)
    requires s.Valid() && ticket in s.granted
    ensures s.Resume(ticket).Valid() && s.Resume(ticket).Available() == s.Available() - 1
    ensures forall t :: s.Resume(ticket).Holds(t) <==> s.Holds(t) && t != ticket
  {
  }

  lemma DrainValid(s: Sem)
    requires s.Valid()
    ensures s.Drain().Valid() && s.Drain().waiters == []
    ensures forall t :: s.Drain().Holds(t) <==> s.Holds(t)
  {
  }

  // ---------------------------------------------------------------------------
  // Fairness over whole traces
  // ---------------------------------------------------------------------------

  datatype SemOp = AcquireOp(ticket: nat) | ReleaseOp

  /** A semaphore with the order in which its acquires were granted. */
  datatype Trace = Trace(sem: Sem, grants: seq<nat>)

  function TraceStep(t: Trace, op: SemOp): Trace {
    match op
    case AcquireOp(ticket) =>
      Trace(t.sem.Acquire(ticket), if t.sem.permits > 0 then t.grants + [ticket] else t.grants)
    case ReleaseOp =>
      Trace(t.sem.Release(), if t.sem.waiters != [] then t.grants + [t.sem.waiters[0]] else t.grants)
  }

  function RunTrace(permits: nat, ops: seq<SemOp>): Trace {
    if ops == [] then Trace(Sem(permits, [], {}), [])
    else TraceStep(RunTrace(permits, ops[..|ops| - 1]), ops[|ops| - 1])
  }

  /** The tickets acquired, in call order. */
  function Arrivals(ops: seq<SemOp>): seq<nat> {
    if ops == [] then []
    else
      var op := ops[|ops| - 1];
      Arrivals(ops[..|ops| - 1]) + if op.AcquireOp? then [op.ticket] else []
  }

  function Releases(ops: seq<SemOp>): nat {
    if ops == [] then 0 else Releases(ops[..|ops| - 1]) + if ops[|ops| - 1].ReleaseOp? then 1 else 0
  }

  /** At every moment the grants so far followed by the waiters are the arrivals, and permits are conserved. */
  lemma {:induction false} GrantsThenWaiters(permits: nat, ops: seq<SemOp>)
    ensures var t := RunTrace(permits, ops);
            && t.grants + t.sem.waiters == Arrivals(ops)
            && t.sem.permits + |t.grants| == permits + Releases(ops)
            && (t.sem.waiters != [] ==> t.sem.permits == 0)
  {
    if ops != [] {
      var init, op := ops[..|ops| - 1], ops[|ops| - 1];
      GrantsThenWaiters(permits, init);
      var t := RunTrace(permits, init);
      if op.AcquireOp? {
        assert t.grants + (t.sem.waiters + [op.ticket]) == t.grants + t.sem.waiters + [op.ticket];
      } else if t.sem.waiters != [] {
        assert t.sem.waiters == [t.sem.waiters[0]] + t.sem.waiters[1..];
        assert t.grants + [t.sem.waiters[0]] + t.sem.waiters[1..] == t.grants + t.sem.waiters;
      }
    }
  }

  /**
   * Exact first-in first-out hand-off, with no barging: after any trace of acquires and releases, as
   * many acquires are granted as permits ever existed, or all of them, and they are the first to have
   * arrived, in order; the rest wait in order; and somebody waits only when no permit is free.
   */
  lemma {:induction false} FifoHandOff(permits: nat, ops: seq<SemOp>)
    ensures var t, arrivals := RunTrace(permits, ops), Arrivals(ops);
            var n := Min(|arrivals|, permits + Releases(ops));
            && t.grants == arrivals[..n]
            && t.sem.waiters == arrivals[n..]
            && t.sem.permits + |t.grants| == permits + Releases(ops)
            && (t.sem.waiters != [] ==> t.sem.permits == 0)
  {
    hide RunTrace, Arrivals, Releases;
    GrantsThenWaiters(permits, ops);
    var t, arrivals := RunTrace(permits, ops), Arrivals(ops);
    var n := Min(|arrivals|, permits + Releases(ops));
    assert |t.grants| + |t.sem.waiters| == |arrivals| && |t.grants| == n;
    assert arrivals[..n] == t.grants && arrivals[n..] == t.sem.waiters;
  }

  // ---------------------------------------------------------------------------
  // The code
  // ---------------------------------------------------------------------------

  class Semaphore {
    var permits: nat
    var waiters: seq<nat>
    var granted: set<nat>

    ghost function Value(): Sem
      reads this
    {
      Sem(permits, waiters, granted)
    }

    constructor (permits: nat)
      ensures Value() == Sem(permits, [], {})
    {
      this.permits := permits;
      waiters := [];
      granted := {};
    }

    method Acquire(ticket: nat)
      modifies this
      ensures Value() == old(Value()).Acquire(ticket)
    {
      if permits > 0 {
        permits := permits - 1;
        granted := granted + {ticket};
        return;
      }
      waiters := waiters + [ticket];
    }

    method Release()
      modifies this
      ensures Value() == old(Value()).Release()
    {
      if |waiters| > 0 {
        var next := waiters[0];
        waiters := waiters[1..];
        granted := granted + {next};
      } else {
        permits := permits + 1;
      }
    }

    method Resume(ticket: nat)
      requires ticket in granted
      modifies this
      ensures Value() == old(Value()).Resume(ticket)
    {
      granted := granted - {ticket};
    }

    method DrainWaiters()
      modifies this
      ensures Value() == old(Value()).Drain()
    {
      while |waiters| > 0
        invariant permits == old(permits)
        invariant granted + (set t | t in waiters) == old(granted + set t | t in waiters)
        decreases |waiters|
      {
        var next := waiters[0];
        assert waiters == [next] + waiters[1..];
        waiters := waiters[1..];
        granted := granted + {next};
      }
    }
  }

  /** `waiting`: a waiter is parked. `signalled`: a signal is stored for the next wait. */
  datatype GateState = GateState(waiting: bool, signalled: bool)

  class Gate {
    var waiting: bool
    var signalled: bool

    ghost function Value(): GateState
      reads this
    {
      GateState(waiting, signalled)
    }

    constructor ()
      ensures Value() == GateState(false, false)
    {
      waiting, signalled := false, false;
    }

    /** Wakes the parked waiter, or stores the signal. */
    method Signal() returns (woke: bool)
      modifies this
      ensures woke == old(waiting)
      ensures Value() == if old(waiting) then GateState(false, old(signalled)) else GateState(false, true)
    {
      woke := waiting;
      if waiting {
        waiting := false;
      } else {
        signalled := true;
      }
    }

    /** Consumes a stored signal at once, or parks. */
    method Wait() returns (parked: bool)
      modifies this
      ensures parked == !old(signalled)
      ensures Value() == if old(signalled) then GateState(old(waiting), false) else GateState(true, false)
    {
      parked := !signalled;
      if signalled {
        signalled := false;
      } else {
        waiting := true;
      }
    }
  }
}
