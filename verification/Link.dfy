/** The reconnection state machine of the protocol layer.

    Every stretch of code between two suspension points is one step, and the
    environment chooses which task runs next and how each awaited call ends.
    `log` is a history of what happened, in order; the code does not keep it. */
module Link {

  type TaskId = nat

  /** The retry budget: no limit, or at most so many attempts in a pass. */
  datatype Budget = Unlimited | AtMost(attempts: nat)

  /** What is fixed for the life of a protocol: how many parties listen to the
      supervisor, and the retry budget. */
  datatype Config = Config(listeners: nat, budget: Budget)

  datatype Fault = ConnectionFailed | ConnectionClosed | OtherFault

  /** How an awaited call ended. */
  datatype Outcome = Returned | Raised(fault: Fault)

  /** Where a task that is inside the reconnection code is suspended.
      `told` counts the listeners called so far in the current fan-out. */
  datatype Phase =
    | Notifying(told: nat)     // a detector, reporting the loss before it spawns the task
    | Scheduled                // the reconnection task, spawned and not yet run
    | Closing                  // awaiting the teardown of the old transport
    | Connecting(failures: nat)
    | Restoring(told: nat)     // reporting the recovery
    | Renotifying(told: nat)   // reporting a loss seen while reconnecting

  datatype Entry =
    | Served
    | Reported                 // a drop report accepted while running
    | Lost(listener: nat)
    | PassBegun
    | ConnectFailed
    | Connected
    | Restored(listener: nat)
    | GaveUp(expected: bool, raised: bool)
    | DetectorDied             // a detector ended before it could spawn the task
    | Interrupted

  datatype State = State(
    running: bool,
    serving: bool,             // the task group exists
    reconnecting: bool,
    redo: bool,
    connected: bool,           // the transport holds a stream
    stopping: bool,            // cancellation has been requested
    tasks: map<TaskId, Phase>,
    log: seq<Entry>)

  datatype Event =
    | Report(task: TaskId)                        // `task` calls handle_disconnect
    | Notify(task: TaskId, previous: Outcome)     // the fan-out calls its next listener
    | Detected(task: TaskId, previous: Outcome, child: TaskId)
    | Begin(task: TaskId)
    | Closed(task: TaskId, outcome: Outcome)
    | Attempted(task: TaskId, outcome: Outcome)
    | Notified(task: TaskId, previous: Outcome)
    | Interrupt                                   // cancelled from outside
    | Stop
    | Cancel(task: TaskId)
    | Finish                                      // serve() returns: no task of its own is left
    | Serve                                       // serve() is entered again

  const START := State(true, true, false, false, true, false, map[], [Served])

  // ---------------------------------------------------------------------
  // What each kind of failure turns into on its way out
  // ---------------------------------------------------------------------

  /** Transport.connect translates every failure into one. */
  function TransportConnect(raw: Outcome): Outcome {
    if raw.Returned? then Returned else Raised(ConnectionFailed)
  }

  /** Failures closing the old transport, and failures of a listener, are logged and dropped. */
  function Swallow(raw: Outcome): Outcome {
    match raw
    case Returned => Returned
    case Raised(_) => Returned
  }

  // ---------------------------------------------------------------------
  // The segments
  // ---------------------------------------------------------------------

  function HandleDisconnect(s: State, t: TaskId): State {
    if !s.running then s
    else if s.reconnecting then s.(redo := true, log := s.log + [Reported])
    else if !s.serving then s
    else s.(reconnecting := true, tasks := s.tasks[t := Notifying(0)], log := s.log + [Reported])
  }

  /** One more listener is called, unless a failure of the one before it escapes the fan-out. */
  function CallListener(c: Config, s: State, t: TaskId, previous: Outcome): State
    requires t in s.tasks
  {
    match Swallow(previous)
    case Raised(fault) => Escape(c, s, t, fault)
    case Returned =>
      match s.tasks[t]
      case Notifying(k) => s.(tasks := s.tasks[t := Notifying(k + 1)], log := s.log + [Lost(k)])
      case Restoring(k) => s.(tasks := s.tasks[t := Restoring(k + 1)], log := s.log + [Restored(k)])
      case Renotifying(k) => s.(tasks := s.tasks[t := Renotifying(k + 1)], log := s.log + [Lost(k)])
      case _ => s
  }

  /** An exception leaves the code `t` is running: a detector dies of it, the
      reconnection task catches it and gives up. */
  function Escape(c: Config, s: State, t: TaskId, fault: Fault): State
    requires t in s.tasks
  {
    if s.tasks[t].Notifying?
    then s.(tasks := s.tasks - {t}, log := s.log + [DetectorDied])
    else GiveUp(c, s, t, fault)
  }

  /** The detector is done reporting and spawns the reconnection task. With the
      task group gone there is nothing to spawn it on, and the detector fails. */
  function SpawnTask(c: Config, s: State, t: TaskId, previous: Outcome, child: TaskId): State
    requires t in s.tasks
  {
    match Swallow(previous)
    case Raised(fault) => Escape(c, s, t, fault)
    case Returned =>
      if s.serving
      then s.(tasks := (s.tasks - {t})[child := Scheduled])
      else s.(tasks := s.tasks - {t}, log := s.log + [DetectorDied])
  }

  /** The top of the reconnection loop, up to the teardown of the old transport. */
  function LoopTop(s: State, t: TaskId): State {
    s.(redo := false, connected := false, tasks := s.tasks[t := Closing], log := s.log + [PassBegun])
  }

  /** The clause that catches what ends the loop: give up, and reset the flags. */
  function GiveUp(c: Config, s: State, t: TaskId, fault: Fault): State {
    var raised := c.budget != AtMost(0);
    s.(running := false,
       stopping := s.stopping || raised,
       reconnecting := false,
       redo := false,
       tasks := s.tasks - {t},
       log := s.log + [GaveUp(fault != OtherFault, raised)])
  }

  function AfterClose(c: Config, s: State, t: TaskId, raw: Outcome): State {
    match Swallow(raw)
    case Raised(fault) => GiveUp(c, s, t, fault)
    case Returned =>
      if c.budget == AtMost(0) then GiveUp(c, s, t, ConnectionClosed)
      else s.(tasks := s.tasks[t := Connecting(0)])
  }

  function AfterAttempt(c: Config, s: State, t: TaskId, raw: Outcome): State
    requires t in s.tasks && s.tasks[t].Connecting?
  {
    match TransportConnect(raw)
    case Returned =>
      s.(connected := true, tasks := s.tasks[t := Restoring(0)], log := s.log + [Connected])
    case Raised(fault) =>
      var failures := s.tasks[t].failures + 1;
      var failed := s.(log := s.log + [ConnectFailed]);
      if c.budget.AtMost? && failures >= c.budget.attempts
      then GiveUp(c, failed, t, fault)
      else failed.(tasks := s.tasks[t := Connecting(failures)])
  }

  /** The last listener is done. A recovery that has been reported ends the
      reconnection, unless it is to go round again; once the second loss has
      been reported, it does go round again. */
  function AfterFanOut(c: Config, s: State, t: TaskId, previous: Outcome): State
    requires t in s.tasks
  {
    match Swallow(previous)
    case Raised(fault) => Escape(c, s, t, fault)
    case Returned =>
      if s.tasks[t].Renotifying? then LoopTop(s, t)
      else if s.redo then s.(tasks := s.tasks[t := Renotifying(0)])
      else s.(reconnecting := false, redo := false, tasks := s.tasks - {t})
  }

  /** A cancelled detector leaves the flags alone; a cancelled reconnection resets them. */
  function CancelTask(s: State, t: TaskId): State
    requires t in s.tasks
  {
    if s.tasks[t].Notifying?
    then s.(tasks := s.tasks - {t}, log := s.log + [DetectorDied])
    else s.(reconnecting := false, redo := false, tasks := s.tasks - {t})
  }

  // ---------------------------------------------------------------------
  // Steps and runs
  // ---------------------------------------------------------------------

  /** serve() returns once no task of its own is left. A detector need not be one:
      the heartbeat's is not, so serve() may return under it, cancelled or not.
      The life of the reader is left to the environment. */
  predicate Enabled(c: Config, s: State, e: Event) {
    match e
    case Report(t) => t !in s.tasks
    case Notify(t, _) => t in s.tasks &&
      (match s.tasks[t]
       case Notifying(k) => k < c.listeners
       case Restoring(k) => k < c.listeners
       case Renotifying(k) => k < c.listeners
       case _ => false)
    case Detected(t, _, child) => t in s.tasks && s.tasks[t] == Notifying(c.listeners) && child !in s.tasks
    case Begin(t) => t in s.tasks && s.tasks[t].Scheduled?
    case Closed(t, _) => t in s.tasks && s.tasks[t].Closing?
    case Attempted(t, _) => t in s.tasks && s.tasks[t].Connecting?
    case Notified(t, _) => t in s.tasks &&
      (s.tasks[t] == Restoring(c.listeners) || s.tasks[t] == Renotifying(c.listeners))
    case Interrupt => s.serving
    case Stop => true
    case Cancel(t) => s.stopping && t in s.tasks
    case Finish => s.serving && forall t | t in s.tasks :: s.tasks[t].Notifying?
    case Serve => !s.serving && s.tasks == map[]
  }

  function Next(c: Config, s: State, e: Event): State
    requires Enabled(c, s, e)
  {
    match e
    case Report(t) => HandleDisconnect(s, t)
    case Notify(t, previous) => CallListener(c, s, t, previous)
    case Detected(t, previous, child) => SpawnTask(c, s, t, previous, child)
    case Begin(t) => LoopTop(s, t)
    case Closed(t, o) => AfterClose(c, s, t, o)
    case Attempted(t, o) => AfterAttempt(c, s, t, o)
    case Notified(t, previous) => AfterFanOut(c, s, t, previous)
    case Interrupt => s.(stopping := true, log := s.log + [Interrupted])
    case Stop => s.(running := false, stopping := true, log := s.log + [Interrupted])
    case Cancel(t) => CancelTask(s, t)
    case Finish => s.(running := false, serving := false)
    case Serve => s.(running := true, serving := true, connected := true, stopping := false, log := s.log + [Served])
  }

  ghost predicate Legal(c: Config, s: State, es: seq<Event>)
    decreases es
  {
    es == [] || (Enabled(c, s, es[0]) && Legal(c, Next(c, s, es[0]), es[1..]))
  }

  ghost function Exec(c: Config, s: State, es: seq<Event>): State
    requires Legal(c, s, es)
    decreases es
  {
    if es == [] then s else Exec(c, Next(c, s, es[0]), es[1..])
  }
}
