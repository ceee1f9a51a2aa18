/**
  The graceful listener's lifecycle as a sequential state machine over values.

  A listener's observable state is its closed flag, its counter of outstanding accepted
  connections and the number of drain signals it has sent. Every operation of the listener
  and of its tracked connections is one `Op`; `Step` is the effect of one operation and
  `Run` the effect of a sequence of them. The class `Zerodown.Listener` is proved to move
  exactly as `Step` says, so the lemmas here are about every execution of that class.
*/
module Lifecycle {
  import opened Errors

  /** Which of the two channels Wait's select receives from first. */
  datatype Race = SignalFirst | TimerFirst

  /** The state of one listener: the closed flag, the counter, and the drain signals sent so far. */
  datatype ListenerState = ListenerState(closed: bool, count: int, signals: nat)

  /**
    One operation on a listener. `AcceptOp(succeeded)` is an Accept whose underlying accept
    succeeded or failed; `ConnCloseOp` is the Close of any connection the listener handed out
    (it decrements the owner's counter); the last three only observe.
  */
  datatype Op =
    | AcceptOp(succeeded: bool)
    | CloseOp
    | ConnCloseOp
    | IsClosedOp
    | WaitOp(race: Race)
    | DupFdOp

  /** The state New gives a listener: open, no connections, no signal sent. */
  function Initial(): ListenerState
  {
    ListenerState(false, 0, 0)
  }

  /** The effect of one operation. */
  function Step(s: ListenerState, op: Op): ListenerState
  {
    match op
    case AcceptOp(succeeded) => if succeeded then s.(count := s.count + 1) else s
    case CloseOp => s.(closed := true)
    case ConnCloseOp =>
      var n := s.count - 1;
      s.(count := n, signals := if s.closed && n == 0 then s.signals + 1 else s.signals)
    case IsClosedOp => s
    case WaitOp(_) => s
    case DupFdOp => s
  }

  /** The effect of a sequence of operations, first to last. */
  function Run(s: ListenerState, ops: seq<Op>): ListenerState
    decreases |ops|
  {
    if ops == [] then s else Run(Step(s, ops[0]), ops[1..])
  }

  /** What Wait returns: "not closed" first, then immediate success at count 0, then the race. */
  function WaitResult(s: ListenerState, race: Race): (r: Outcome)
    ensures r == Fail(NotClosed) <==> !s.closed
    ensures r == Pass <==> s.closed && (s.count == 0 || race == SignalFirst)
    ensures r == Fail(TimeOut) <==> s.closed && s.count != 0 && race == TimerFirst
  {
    if !s.closed then Fail(NotClosed)
    else if s.count == 0 then Pass
    else match race
      case SignalFirst => Pass
      case TimerFirst => Fail(TimeOut)
  }

  /** True when Wait, called in state `s`, would block on its select. */
  predicate WaitBlocks(s: ListenerState)
  {
    s.closed && s.count != 0
  }

  /** The operations that read the listener and never change it. */
  predicate IsObserver(op: Op)
  {
    op.IsClosedOp? || op.WaitOp? || op.DupFdOp?
  }

  /** The number of successful accepts in `ops`. */
  function Accepted(ops: seq<Op>): nat
    decreases |ops|
  {
    if ops == [] then 0 else (if ops[0] == AcceptOp(true) then 1 else 0) + Accepted(ops[1..])
  }

  /** The number of connection closes in `ops`. */
  function ConnCloses(ops: seq<Op>): nat
    decreases |ops|
  {
    if ops == [] then 0 else (if ops[0] == ConnCloseOp then 1 else 0) + ConnCloses(ops[1..])
  }

  /**
    The assumption that no Accept counts a connection once the listener is closed. Accept
    itself never looks at the closed flag, so nothing in the listener enforces this. It needs
    the operating system's accept to fail after Close, and it also rules out an Accept whose
    underlying accept returns before Close and whose increment runs after it; the lemmas
    that assume it hold of the concurrent listener only when no Accept straddles Close.
  */
  predicate HonoursClose(s: ListenerState, ops: seq<Op>)
    decreases |ops|
  {
    ops == [] || ((s.closed ==> ops[0] != AcceptOp(true)) && HonoursClose(Step(s, ops[0]), ops[1..]))
  }

  /** The invariant behind "the drain signal is sent at most once, and only after Close". */
  predicate DrainInvariant(s: ListenerState)
  {
    s.signals <= 1 && (!s.closed ==> s.signals == 0) && (s.signals == 1 ==> s.count <= 0)
  }

  // ---------------------------------------------------------------------------------------
  // Single operations

  /** A connection close lowers the counter by one and signals exactly when it drains a closed listener. */
  lemma ConnCloseSignalsWhenDrained(s: ListenerState)
    ensures Step(s, ConnCloseOp).count == s.count - 1
    ensures Step(s, ConnCloseOp).closed == s.closed
    ensures Step(s, ConnCloseOp).signals == s.signals + 1 <==> s.closed && s.count == 1
    ensures Step(s, ConnCloseOp).signals != s.signals + 1 ==> Step(s, ConnCloseOp).signals == s.signals
  {
  }

  /** Wait on a fresh listener fails with "not closed"; after Close, with nothing accepted, it succeeds at once. */
  lemma WaitBeforeClose(race: Race)
    ensures WaitResult(Initial(), race) == Fail(NotClosed)
    ensures WaitResult(Step(Initial(), CloseOp), race) == Pass
  {
  }

  /**
    On a closed listener with one outstanding connection, a Wait blocks on its select; closing
    that connection sends the drain signal, and the Wait already blocked receives it and succeeds.
  */
  lemma LastConnCloseWakesWait(s: ListenerState)
    requires s.closed && s.count == 1
    ensures WaitBlocks(s) && WaitResult(s, TimerFirst) == Fail(TimeOut)
    ensures Step(s, ConnCloseOp).signals == s.signals + 1 && WaitResult(s, SignalFirst) == Pass
  {
  }

  // ---------------------------------------------------------------------------------------
  // Sequences of operations

  /** The listener is closed after a run exactly when it was closed before or the run closed it. */
  lemma {:induction false} ClosedIffCloseSeen(s: ListenerState, ops: seq<Op>)
    ensures Run(s, ops).closed <==> s.closed || CloseOp in ops
    decreases |ops|
  {
    if ops != [] {
      assert ops == [ops[0]] + ops[1..];
      ClosedIffCloseSeen(Step(s, ops[0]), ops[1..]);
    }
  }

  /** The closed flag never goes back to false. */
  lemma ClosedIsMonotonic(s: ListenerState, ops: seq<Op>)
    requires s.closed
    ensures Run(s, ops).closed
  {
    ClosedIffCloseSeen(s, ops);
  }

  /** The counter is the starting count plus the successful accepts minus the connection closes. */
  lemma {:induction false} CountBalance(s: ListenerState, ops: seq<Op>)
    ensures Run(s, ops).count == s.count + Accepted(ops) - ConnCloses(ops)
    decreases |ops|
  {
    if ops != [] {
      CountBalance(Step(s, ops[0]), ops[1..]);
    }
  }

  /** When every accepted connection is closed exactly once, the counter is back at 0. */
  lemma BalancedRunDrains(ops: seq<Op>)
    requires Accepted(ops) == ConnCloses(ops)
    ensures Run(Initial(), ops).count == 0
  {
    CountBalance(Initial(), ops);
  }

  /** Operations that only observe leave the whole state as it was. */
  lemma {:induction false} ObserversKeepState(s: ListenerState, ops: seq<Op>)
    requires forall i :: 0 <= i < |ops| ==> IsObserver(ops[i])
    ensures Run(s, ops) == s
    decreases |ops|
  {
    if ops != [] {
      assert IsObserver(ops[0]);
      ObserversKeepState(Step(s, ops[0]), ops[1..]);
    }
  }

  /**
    Once closed, and with no Accept counting a connection afterwards, the counter only goes down:
    by one per connection close, and nothing else changes it.
  */
  lemma {:induction false} CountOnlyFallsAfterClose(s: ListenerState, ops: seq<Op>)
    requires s.closed && HonoursClose(s, ops)
    ensures Run(s, ops).closed
    ensures Run(s, ops).count == s.count - ConnCloses(ops)
    decreases |ops|
  {
    if ops != [] {
      CountOnlyFallsAfterClose(Step(s, ops[0]), ops[1..]);
    }
  }

  /** A closed listener whose counter is at or below 0 sends no more drain signals, and its counter stays there. */
  lemma {:induction false} NoSignalOnceDrained(s: ListenerState, ops: seq<Op>)
    requires s.closed && s.count <= 0 && HonoursClose(s, ops)
    ensures Run(s, ops).signals == s.signals && Run(s, ops).count <= 0
    decreases |ops|
  {
    if ops != [] {
      NoSignalOnceDrained(Step(s, ops[0]), ops[1..]);
    }
  }

  /**
    A closed listener with outstanding connections sends exactly one drain signal, and only
    once as many connections have closed as were outstanding.
  */
  lemma {:induction false} SignalWhenOutstandingClosed(s: ListenerState, ops: seq<Op>)
    requires s.closed && s.count > 0 && HonoursClose(s, ops)
    ensures Run(s, ops).signals == s.signals + (if ConnCloses(ops) >= s.count then 1 else 0)
    decreases |ops|
  {
    if ops != [] {
      var t := Step(s, ops[0]);
      if t.count == 0 {
        NoSignalOnceDrained(t, ops[1..]);
      } else {
        SignalWhenOutstandingClosed(t, ops[1..]);
      }
    }
  }

  /**
    A Wait whose timer fired first changed nothing, so a retried Wait blocks again. The signal
    it waits for is sent exactly once, by the connection close that takes the counter to 0;
    a counter already below 0 never gets there, and no signal is sent at all.
  */
  lemma WaitTimeoutIsRetryable(s: ListenerState, ops: seq<Op>)
    requires WaitResult(s, TimerFirst) == Fail(TimeOut)
    requires HonoursClose(s, ops)
    ensures Step(s, WaitOp(TimerFirst)) == s && WaitBlocks(s)
    ensures s.count > 0 ==> Run(s, ops).signals == s.signals + (if ConnCloses(ops) >= s.count then 1 else 0)
    ensures s.count < 0 ==> Run(s, ops).signals == s.signals
  {
    if s.count > 0 {
      SignalWhenOutstandingClosed(s, ops);
    } else {
      NoSignalOnceDrained(s, ops);
    }
  }

  /** Every operation, when no Accept counts a connection after Close, keeps DrainInvariant. */
  lemma {:induction false} DrainInvariantKept(s: ListenerState, ops: seq<Op>)
    requires DrainInvariant(s) && HonoursClose(s, ops)
    ensures DrainInvariant(Run(s, ops))
    decreases |ops|
  {
    if ops != [] {
      var t := Step(s, ops[0]);
      assert DrainInvariant(t);
      DrainInvariantKept(t, ops[1..]);
    }
  }

  /**
    From New on, when no Accept counts a connection after Close, the drain signal is sent at most
    once, only to a closed listener, and once it has been sent the counter stays at or below 0.
  */
  lemma AtMostOneDrainSignal(ops: seq<Op>)
    requires HonoursClose(Initial(), ops)
    ensures Run(Initial(), ops).signals <= 1
    ensures Run(Initial(), ops).signals == 1 ==> Run(Initial(), ops).closed && Run(Initial(), ops).count <= 0
  {
    DrainInvariantKept(Initial(), ops);
  }

  /** Without that assumption the signal can be sent twice: Accept itself does not refuse after Close. */
  lemma DrainSignalTwiceIfAcceptSucceedsAfterClose()
    ensures !HonoursClose(Initial(), [CloseOp, AcceptOp(true), ConnCloseOp, AcceptOp(true), ConnCloseOp])
    ensures Run(Initial(), [CloseOp, AcceptOp(true), ConnCloseOp, AcceptOp(true), ConnCloseOp]).signals == 2
  {
    var ops := [CloseOp, AcceptOp(true), ConnCloseOp, AcceptOp(true), ConnCloseOp];
    assert ops[1..] == [AcceptOp(true), ConnCloseOp, AcceptOp(true), ConnCloseOp];
  }

  /** A connection closed twice is counted down twice, so the counter can go below 0. */
  lemma CounterGoesNegativeOnDoubleConnClose()
    ensures Run(Initial(), [AcceptOp(true), ConnCloseOp, ConnCloseOp]).count == -1
  {
  }
}
