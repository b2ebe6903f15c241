/** Requests and the replies correlated with them.

    A call registers a slot, sends, and waits for the slot to be resolved. The
    environment chooses which caller moves next, what arrives and when a timeout
    fires. `log` is a history the code does not keep. */
module Calls {
  import opened MessageIds

  /** A message off the wire: the id it answers (empty for none), whether it is
      an error response, and what else it carries. */
  datatype Inbound = Inbound(clientId: string, isError: bool, body: int)

  datatype Outcome = Unresolved | Reply(message: Inbound) | Refusal(message: Inbound) | ConnectionLost

  datatype Slot = Slot(isSet: bool, outcome: Outcome)

  datatype Phase = Sending | Waiting

  /** How a call ends for its caller. */
  datatype Result =
    | Answered(message: Inbound)
    | ApiError(message: Inbound)
    | Closed
    | TimedOut
    | SendFailed
    | Cancelled

  datatype Entry =
    | Registered(id: string)
    | NotRunning                              // a call refused at the door
    | Arrived(message: Inbound, toCall: bool) // into a slot, or to the event handlers
    | Finished(id: string, result: Result)
    | Stopped
    | AllFailed
    | ServedAgain

  datatype State = State(
    running: bool,
    counter: nat,
    pending: map<string, Slot>,
    calls: map<string, Phase>,
    log: seq<Entry>)

  datatype Event =
    | Call
    | Sent(id: string, ok: bool)
    | Arrive(message: Inbound)
    | Wake(id: string)
    | Expire(id: string)
    | CancelCall(id: string)
    | Stop
    | FailAll                                 // giving up, or leaving serve()
    | Serve

  const START := State(true, 0, map[], map[], [])

  const FRESH := Slot(false, Unresolved)

  function Resolve(m: Inbound): Slot {
    Slot(true, if m.isError then Refusal(m) else Reply(m))
  }

  function Register(s: State): State {
    if !s.running then s.(log := s.log + [NotRunning])
    else
      var id := Decimal(s.counter + 1);
      s.(counter := s.counter + 1,
         pending := s.pending[id := FRESH],
         calls := s.calls[id := Sending],
         log := s.log + [Registered(id)])
  }

  function Dispatch(s: State, m: Inbound): State {
    if m.clientId != "" && m.clientId in s.pending
    then s.(pending := s.pending[m.clientId := Resolve(m)], log := s.log + [Arrived(m, true)])
    else s.(log := s.log + [Arrived(m, false)])
  }

  /** What a caller makes of its slot once the event is set. */
  function Outcomes(running: bool, outcome: Outcome): Result {
    if !running then Closed
    else
      match outcome
      case Unresolved => Closed
      case ConnectionLost => Closed
      case Refusal(m) => ApiError(m)
      case Reply(m) => Answered(m)
  }

  /** However a call ends, its slot goes. */
  function Finish(s: State, id: string, result: Result): State {
    s.(pending := s.pending - {id}, calls := s.calls - {id}, log := s.log + [Finished(id, result)])
  }

  function FailPending(s: State): State {
    s.(running := false,
       pending := map id | id in s.pending :: Slot(true, ConnectionLost),
       log := s.log + [AllFailed])
  }

  predicate Enabled(s: State, e: Event) {
    match e
    case Sent(id, _) => id in s.calls && s.calls[id] == Sending
    case Wake(id) => id in s.calls && s.calls[id] == Waiting && id in s.pending && s.pending[id].isSet
    case Expire(id) => id in s.calls && s.calls[id] == Waiting
    case CancelCall(id) => id in s.calls
    case Serve => !s.running
    case _ => true
  }

  function Next(s: State, e: Event): State
    requires Enabled(s, e)
  {
    match e
    case Call => Register(s)
    case Sent(id, ok) => if ok then s.(calls := s.calls[id := Waiting]) else Finish(s, id, SendFailed)
    case Arrive(m) => Dispatch(s, m)
    case Wake(id) => Finish(s, id, Outcomes(s.running, s.pending[id].outcome))
    case Expire(id) => Finish(s, id, TimedOut)
    case CancelCall(id) => Finish(s, id, Cancelled)
    case Stop => s.(running := false, log := s.log + [Stopped])
    case FailAll => FailPending(s)
    case Serve => s.(running := true, log := s.log + [ServedAgain])
  }

  ghost predicate Legal(s: State, es: seq<Event>)
    decreases es
  {
    es == [] || (Enabled(s, es[0]) && Legal(Next(s, es[0]), es[1..]))
  }

  ghost function Exec(s: State, es: seq<Event>): State
    requires Legal(s, es)
    decreases es
  {
    if es == [] then s else Exec(Next(s, es[0]), es[1..])
  }
}
