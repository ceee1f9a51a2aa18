# go-zerodown graceful listener, modelled in Dafny

go-zerodown lets a server hand its listening socket to a successor process. The old process
then shuts down only after its in-flight connections finish. The core is the graceful
`Listener` (listener.go) and the tracked connection `conn` (conn.go).

- The listener wraps an operating-system listener.
- It counts the connections it has accepted and not yet seen closed.
- It has a closed flag that only ever goes from false to true.
- It sends a drain signal on its `quit` channel when a connection close brings a closed
  listener's counter to 0.
- `Wait` reports "not closed" before `Close`. After `Close` it succeeds at once at count 0.
  Otherwise it waits for the drain signal or the timer, whichever comes first. The signal
  reaches a `Wait` only if that `Wait` is already past its count check when the last
  connection closes. Otherwise the send blocks forever while holding the counter lock. Every
  later `Wait`, every later connection close, and every `Accept` whose underlying accept
  succeeds then hangs on that lock. The model does not capture this hang
  (see "Left out").

The model has three modules:

- `Errors` (errors.dfy) holds the error values and the `Outcome`/`Result` shapes of Go's
  `error` returns.
- `Lifecycle` (lifecycle.dfy) is the listener as a state machine over values.
  `ListenerState` holds the closed flag, the counter and the number of drain signals sent.
  `Step` gives the effect of one operation and `Run` the effect of a sequence of operations.
  `WaitResult` is Wait's decision. The lemmas here are about sequences of operations.
- `Zerodown` (zerodown.dfy) holds `class Listener`, whose methods update `isClosed`, `counter`
  and a ghost count of drain signals in place, and `datatype Conn` with its `Close` method.
  listener.go and conn.go share this one module, as they share one Go package: `Accept`
  returns a `Conn` and a `Conn` points back at its `Listener`. Every state-changing method
  ensures `State() == Step(old(State()), op)`, so the `Lifecycle` lemmas hold of the class.
  `WaitTimeoutScenario` shows this for a whole sequence of calls: it ends in the state that
  `Run` gives for the same operations.

The operating system is an input, never modelled:

- `New` takes a `NetListener` whose `hasFile` flag says whether it can export its descriptor.
- `Accept` takes what the underlying accept returned.
- `Close` and `Conn.Close` take what the underlying close returned.
- `DupFd` takes the results of exporting the descriptor and of the duplicate system call.
- `Wait` takes a `Race`: whether the drain signal or the timer is ready first.

Two things a reader might expect do not hold of the code as written, and the model follows
the code:

- A reader might expect a tracked connection to count itself down only once, and the
  counter never to go negative. `conn.Close` has no guard: every call decrements. The counter
  is therefore an `int`, and `CounterGoesNegativeOnDoubleConnClose` shows it reaching -1.
- A reader might expect the drain signal to be sent at most once. `Accept` never looks at
  the closed flag, so that holds only if no `Accept` counts a connection after `Close`.
  That needs the operating system's accept to fail after `Close`, and no `Accept` to
  straddle `Close` (see "Left out").
  `HonoursClose` states that assumption. `AtMostOneDrainSignal` is proved under it, and
  `DrainSignalTwiceIfAcceptSucceedsAfterClose` shows two signals without it.

## Model

| member | source | states |
|---|---|---|
| Zerodown.Listener.New | listener.go:29-37 | fails with the "doesn't have file" error exactly when the listener cannot export its descriptor; otherwise returns a fresh listener over it, open, with counter 0 and no signal sent |
| Zerodown.Listener.constructor | listener.go:34-37 | a new listener is open, has counter 0 and has sent no signal: the `Initial` state |
| Zerodown.Listener.Accept | listener.go:62-71 | a failed underlying accept is returned unchanged and leaves the counter alone; a successful one raises the counter by exactly one and returns a connection owned by this listener; the closed flag is neither read nor changed |
| Zerodown.Listener.IsClosed | listener.go:74-78 | returns the closed flag and changes nothing |
| Zerodown.Listener.Close | listener.go:81-86 | sets the closed flag whatever the underlying close reports, returns that report unchanged, leaves the counter alone |
| Zerodown.Listener.Wait | listener.go:91-106 | "not closed" exactly when the listener is open; success exactly when it is closed and the count is 0 or the signal comes first; changes nothing |
| Zerodown.Listener.DupFd | listener.go:110-117 | an export failure gives descriptor 0 and that error; otherwise the duplicate call's descriptor and error; no listener state changes |
| Zerodown.Listener.Inc | listener.go:119-123 | raises the counter by exactly one and changes nothing else |
| Zerodown.Listener.Dec | listener.go:125-132 | lowers the counter by exactly one; sends a drain signal if and only if the listener is closed and the counter is now 0 |
| Zerodown.Listener.Count | listener.go:134-138 | returns the counter and changes nothing |
| Zerodown.NewConn | conn.go:10-15 | the connection records the raw connection and the accepting listener as its owner |
| Zerodown.Conn.Close | conn.go:17-20 | on every call, whatever the underlying close reports, counts the owner down by one as `Dec` does; returns the underlying close's result unchanged |
| Lifecycle.WaitResult | listener.go:91-106 | Wait's decision in order: "not closed" iff open; success iff closed and (count 0 or signal first); "time out" iff closed, count not 0 and timer first |
| Lifecycle.ConnCloseSignalsWhenDrained | listener.go:125-132 | a connection close lowers the count by one, keeps the flag, and adds one signal iff the listener is closed and the count was 1; otherwise no signal |
| Lifecycle.WaitBeforeClose | listener_test.go:57-66 | Wait on a new listener fails with "not closed"; after Close, with nothing accepted, it succeeds at once |
| Lifecycle.WaitTimeoutIsRetryable | listener.go:91-132 | a Wait that timed out changed nothing and a retried Wait blocks again; when no Accept counts a connection after Close, exactly one signal is then sent, once as many connections have closed as were outstanding; with the counter below 0, none is ever sent |
| Lifecycle.LastConnCloseWakesWait | listener_test.go:68-88 | on a closed listener with one connection, Wait blocks; closing that connection sends the signal, and the Wait already blocked receives it and succeeds |
| Lifecycle.ClosedIffCloseSeen | listener.go:81-86 | after any sequence of operations the listener is closed iff it was closed before or the sequence contains a Close |
| Lifecycle.ClosedIsMonotonic | listener.go:74-86 | once closed, closed after every later sequence of operations |
| Lifecycle.CountBalance | listener.go:119-132 | after any sequence, the counter is the old counter plus successful accepts minus connection closes |
| Lifecycle.BalancedRunDrains | listener.go:119-132 | from New, when the successful accepts equal the connection closes, the counter is 0 again |
| Lifecycle.ObserversKeepState | listener.go:74-117 | any sequence of IsClosed, Wait and DupFd leaves the flag, the counter and the signals unchanged |
| Lifecycle.CountOnlyFallsAfterClose | listener.go:62-71 | after Close, when no Accept counts a connection after it, the listener stays closed and the counter falls by exactly the number of connection closes |
| Lifecycle.NoSignalOnceDrained | listener.go:125-132 | a closed listener with its counter at or below 0, when no Accept counts a connection after Close, sends no more drain signals and its counter stays at or below 0 |
| Lifecycle.SignalWhenOutstandingClosed | listener.go:125-132 | a closed listener with outstanding connections, when no Accept counts a connection after Close, sends one drain signal iff at least as many connections close as were outstanding, and never more |
| Lifecycle.DrainInvariantKept | listener.go:125-132 | when no Accept counts a connection after Close, every operation keeps "at most one signal, none while open, and count at most 0 once signalled" |
| Lifecycle.AtMostOneDrainSignal | listener.go:125-132 | from New, when no Accept counts a connection after Close, at most one drain signal is sent, only to a closed listener |
| Lifecycle.DrainSignalTwiceIfAcceptSucceedsAfterClose | listener.go:62-71 | if an Accept counts a connection after Close (a socket that accepts after Close, or an Accept straddling Close), the sequence Close, accept, conn close, accept, conn close sends two drain signals |
| Lifecycle.CounterGoesNegativeOnDoubleConnClose | conn.go:17-20 | accepting one connection and closing it twice leaves the counter at -1 |

## Left out

- `Listen` and `FdListen` (listener.go:41-59) only create or adopt an operating-system socket;
  they are I/O. Only `New`'s capability check is modelled, as the `hasFile` input.
- `DupFd`'s `File()` and `syscall.Dup` are operating-system calls. Their results are inputs.
- The read-write mutexes, goroutines and real timers are left out. The model is sequential,
  and each operation is one atomic step.
- `HonoursClose` rules out more than the socket's behaviour. No lock spans the underlying
  accept (listener.go:63) and `inc` (listener.go:68), so a `Close` can run between them. That
  `Accept` counts its connection after `Close`, and `HonoursClose` excludes it. So
  `CountOnlyFallsAfterClose`, `NoSignalOnceDrained`, `SignalWhenOutstandingClosed`,
  `WaitTimeoutIsRetryable`, `DrainInvariantKept` and `AtMostOneDrainSignal` hold of the source
  only when the socket's accepts fail after `Close` and no `Accept` straddles `Close`. With
  one that straddles, a second drain signal can be sent (and block forever), and a `Wait` at
  count 0 inside that window succeeds while a connection is about to be counted.
- The send on the unbuffered `quit` channel in `dec` (listener.go:130) blocks until a `Wait`
  receives it. With no `Wait` receiving, it stalls the closing goroutine while it holds the
  counter lock (listener.go:126-127). From then on every later `Wait` (its `count`,
  listener.go:95), every later connection close (its `dec`), and every `Accept` whose
  underlying accept succeeds (its `inc`, listener.go:68) hangs on that lock, and a `Wait`'s
  timeout never starts. An `Accept` whose underlying accept fails returns at listener.go:65
  without taking the lock. The model records the send as one more drain signal,
  does not tie it to a receive, and lets those later operations go on. In particular a `Wait`
  that reaches its count check after the last connection closed succeeds in the model through the count-0 branch,
  whereas in the source it hangs. This is a liveness problem outside a sequential model.
- Zerodown.Listener.Wait: which channel the `select` receives from first is an input
  (`Race`), not a consequence of the signals sent. The timeout duration is not modelled.
- Zerodown.Conn.Close: the decrement comes before the underlying close in the source. In a
  sequential model that order is not observable beyond the decrement happening whatever the
  underlying close reports.
- Reads and writes through a `conn` pass straight to the raw connection and are not modelled.
- The HTTP wrappers (http/server.go) and the example program only delegate to the listener.
  They are not part of this model.
