/**
  The graceful listener (listener.go) and the connection wrapper it hands out (conn.go).

  The operating system's listening socket is not modelled: what it would report is passed in.
  Accept takes the underlying accept's result, Close the underlying close's result, DupFd the
  results of exporting and duplicating the descriptor, Wait which of its two channels is ready
  first. Every state change is tied to `Lifecycle.Step`, whose lemmas then apply to the class.
*/
module Zerodown {
  import opened Errors
  import opened Lifecycle

  /** A listening socket handed to New; `hasFile` says whether it can export its descriptor. */
  datatype NetListener = NetListener(id: nat, hasFile: bool)

  /** A connection the operating system accepted. */
  datatype NetConn = NetConn(id: nat)

  class Listener {
    const inner: NetListener
    var isClosed: bool
    var counter: int
    /** The drain signals sent on the quit channel so far. */
    ghost var signals: nat

    ghost function State(): ListenerState
      reads this
    {
      ListenerState(isClosed, counter, signals)
    }

    constructor (inner: NetListener)
      ensures this.inner == inner
      ensures !isClosed && counter == 0 && signals == 0
      ensures State() == Initial()
    {
      this.inner := inner;
      isClosed := false;
      counter := 0;
      signals := 0;
    }

    /** Wraps `l`, which must be able to export its descriptor. */
    static method New(l: NetListener) returns (r: Result<Listener>)
      ensures r.Err? <==> !l.hasFile
      ensures r.Err? ==> r.error == NoFile
      ensures r.Ok? ==> fresh(r.value) && r.value.inner == l
      ensures r.Ok? ==> !r.value.isClosed && r.value.counter == 0 && r.value.signals == 0
    {
      if !l.hasFile {
        return Err(NoFile);
      }
      var listener := new Listener(l);
      r := Ok(listener);
    }

    /** Accepts the next connection; `accepted` is what the underlying accept returned. */
    method Accept(accepted: Result<NetConn>) returns (r: Result<Conn>)
      modifies this
      ensures accepted.Err? ==> r == Err(accepted.error) && counter == old(counter)
      ensures accepted.Ok? ==> r == Ok(Conn(accepted.value, this)) && counter == old(counter) + 1
      ensures isClosed == old(isClosed) && signals == old(signals)
      ensures State() == Step(old(State()), AcceptOp(accepted.Ok?))
    {
      if accepted.Err? {
        return Err(accepted.error);
      }
      Inc();
      r := Ok(NewConn(accepted.value, this));
    }

    method IsClosed() returns (closed: bool)
      ensures closed == isClosed
    {
      closed := isClosed;
    }

    /** Marks the listener closed, then returns what the underlying close returned. */
    method Close(underlying: Outcome) returns (r: Outcome)
      modifies this
      ensures isClosed
      ensures counter == old(counter) && signals == old(signals)
      ensures r == underlying
      ensures State() == Step(old(State()), CloseOp)
    {
      isClosed := true;
      r := underlying;
    }

    /** Waits for every accepted connection to close; `race` says whether the drain signal or the timer comes first. */
    method Wait(race: Race) returns (r: Outcome)
      ensures r == WaitResult(State(), race)
      ensures r == Fail(NotClosed) <==> !isClosed
      ensures r == Pass <==> isClosed && (counter == 0 || race == SignalFirst)
    {
      var closed := IsClosed();
      if !closed {
        return Fail(NotClosed);
      }
      var n := Count();
      if n == 0 {
        return Pass;
      }
      match race
      case SignalFirst => r := Pass;
      case TimerFirst => r := Fail(TimeOut);
    }

    /**
      Duplicates the listener's descriptor. `file` is the result of exporting the descriptor,
      `dup` that of the duplicate system call; the listener's own state is not touched.
    */
    method DupFd(file: Result<int>, dup: (int, Outcome)) returns (fd: int, err: Outcome)
      ensures file.Err? ==> fd == 0 && err == Fail(file.error)
      ensures file.Ok? ==> fd == dup.0 && err == dup.1
    {
      if file.Err? {
        return 0, Fail(file.error);
      }
      fd, err := dup.0, dup.1;
    }

    method Inc()
      modifies this
      ensures counter == old(counter) + 1
      ensures isClosed == old(isClosed) && signals == old(signals)
      ensures State() == Step(old(State()), AcceptOp(true))
    {
      counter := counter + 1;
    }

    /** Counts one connection down and sends the drain signal when that drains a closed listener. */
    method Dec()
      modifies this
      ensures counter == old(counter) - 1 && isClosed == old(isClosed)
      ensures signals == if isClosed && counter == 0 then old(signals) + 1 else old(signals)
      ensures State() == Step(old(State()), ConnCloseOp)
    {
      counter := counter - 1;
      var closed := IsClosed();
      if closed && counter == 0 {
        signals := signals + 1;
      }
    }

    method Count() returns (n: int)
      ensures n == counter
    {
      n := counter;
    }
  }

  /** An accepted connection together with the listener that accepted it. */
  datatype Conn = Conn(raw: NetConn, owner: Listener)
  {
    /**
      Counts the connection down at its owner, on every call and whatever the underlying close
      reports, then returns what the underlying close returned.
    */
    method Close(rawClose: Outcome) returns (r: Outcome)
      modifies owner
      ensures owner.counter == old(owner.counter) - 1 && owner.isClosed == old(owner.isClosed)
      ensures owner.signals == if owner.isClosed && owner.counter == 0 then old(owner.signals) + 1 else old(owner.signals)
      ensures owner.State() == Step(old(owner.State()), ConnCloseOp)
      ensures r == rawClose
    {
      owner.Dec();
      r := rawClose;
    }
  }

  function NewConn(c: NetConn, l: Listener): (r: Conn)
    ensures r.raw == c && r.owner == l
  {
    Conn(c, l)
  }

  /**
    The "Wait timeout" scenario: one connection is accepted and the listener closed; a Wait
    whose timer fires first times out; a second Wait is blocked when the connection closes,
    and the signal that close sends is the one its select receives. The model records the
    second Wait's result before the close whose signal it receives. At the end the class is
    in the state `Lifecycle.Run` gives for the same operations.
  */
  method WaitTimeoutScenario(l: NetListener, c: NetConn)
    requires l.hasFile
  {
    var made := Listener.New(l);
    var listener := made.value;
    var accepted := listener.Accept(Ok(c));
    var conn := accepted.value;
    var closeErr := listener.Close(Pass);
    var first := listener.Wait(TimerFirst);
    assert first == Fail(TimeOut);
    var second := listener.Wait(SignalFirst);
    assert second == Pass;
    var connErr := conn.Close(Pass);
    assert listener.signals == 1 && listener.counter == 0;
    assert listener.State()
      == Run(Initial(), [AcceptOp(true), CloseOp, WaitOp(TimerFirst), WaitOp(SignalFirst), ConnCloseOp]);
  }
}
