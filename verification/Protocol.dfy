/** The protocol object: its fields as the program keeps them, and one method
    for each stretch of code between two suspension points. Every method is
    proved to take the step of the two state machines it stands for. */
module ProtocolObject {
  import opened MessageIds
  import L = Link
  import C = Calls
  import R = Readers

  /** The suspended coroutines of the protocol: where each one stands. */
  type Frames = map<L.TaskId, L.Phase>

  /** The slot of a call in flight: whether its event is set, and what has been left in it. */
  class PendingRequest {
    var isSet: bool
    var outcome: C.Outcome

    constructor ()
      ensures !isSet && outcome == C.Unresolved
    {
      isSet := false;
      outcome := C.Unresolved;
    }

    ghost function Slot(): C.Slot
      reads this
    {
      C.Slot(isSet, outcome)
    }
  }

  /** How the teardown of a stream ends. */
  datatype Teardown = Closed | TimedOut | StreamFault | OtherError

  function Ending(how: Teardown): L.Outcome {
    if how == OtherError then L.Raised(L.OtherFault) else L.Returned
  }

  class Transport {
    var stream: bool

    constructor ()
      ensures stream
    {
      stream := true;
    }

    /** Connects, or fails in the one way a caller retries on. */
    method Connect(raw: L.Outcome) returns (o: L.Outcome)
      modifies this
      ensures old(stream) ==> o == L.Returned && stream
      ensures !old(stream) ==> o == L.TransportConnect(raw) && stream == o.Returned?
    {
      if stream { return L.Returned; }
      if raw.Raised? { return L.Raised(L.ConnectionFailed); }
      stream := true;
      o := L.Returned;
    }

    /** Drops the stream before tearing it down, so that however the teardown
        ends the transport is no longer connected. */
    method Close() returns (tearsDown: bool)
      modifies this
      ensures !stream && (tearsDown <==> old(stream))
    {
      tearsDown := stream;
      stream := false;
    }

    /** The rest of Close: a teardown that hangs or finds the stream broken has done
        its work; any other error is the caller's to deal with. */
    method TornDown(how: Teardown) returns (o: L.Outcome)
      ensures o == Ending(how)
    {
      match how
      case Closed => return L.Returned;
      case TimedOut => return L.Returned;
      case StreamFault => return L.Returned;
      case OtherError => return L.Raised(L.OtherFault);
    }
  }

  class Protocol {
    const config: L.Config
    const transport: Transport
    const ids: ClientMessageIdGenerator
    const readers: R.ReaderTasks
    var pending: map<string, PendingRequest>
    var calls: map<string, C.Phase>
    var running: bool
    var serving: bool
    var stopping: bool
    var reconnecting: bool
    var redoRequested: bool
    var frames: Frames
    ghost var linkLog: seq<L.Entry>
    ghost var callLog: seq<C.Entry>

    ghost function Slots(): map<string, C.Slot>
      reads `pending, pending.Values
    {
      map id | id in pending :: pending[id].Slot()
    }

    ghost function Link(): L.State
      reads `running, `serving, `reconnecting, `redoRequested, `stopping, `frames, `linkLog, transport
    {
      L.State(running, serving, reconnecting, redoRequested, transport.stream, stopping, frames, linkLog)
    }

    ghost function Requests(): C.State
      reads `running, `calls, `callLog, `pending, ids, pending.Values
    {
      C.State(running, ids.counter, Slots(), calls, callLog)
    }

    /** No two ids share a slot; and a single task is inside the reconnection code,
        with the flag up, and without a stream until it has connected. */
    ghost predicate Valid()
      reads `pending, `frames, `reconnecting, transport
    {
      DistinctSlots() && OneFlight()
    }

    ghost predicate DistinctSlots()
      reads `pending
    {
      forall i, j | i in pending && j in pending && pending[i] == pending[j] :: i == j
    }

    ghost predicate OneFlight()
      reads `frames, `reconnecting, transport
    {
      && (forall t, u | t in frames && u in frames :: t == u)
      && (forall t | t in frames :: reconnecting && (frames[t].Closing? || frames[t].Connecting? ==> !transport.stream))
    }

    constructor (config: L.Config)
      ensures Valid() && this.config == config
      ensures Link() == L.START && Requests() == C.START
      ensures fresh(transport) && fresh(ids)
      ensures fresh(readers) && readers.Model() == R.START
    {
      this.config := config;
      transport := new Transport();
      ids := new ClientMessageIdGenerator();
      pending, calls, frames := map[], map[], map[];
      running, serving, stopping, reconnecting, redoRequested := true, true, false, false, false;
      readers := new R.ReaderTasks();
      linkLog, callLog := [L.Served], [];
    }

    // -------------------------------------------------------------------
    // Requests
    // -------------------------------------------------------------------

    /** The first stretch of send_request: refuse, or claim an id and a slot. */
    method SendRequest() returns (id: string)
      requires Valid()
      modifies this`pending, this`calls, this`callLog, ids
      ensures Valid()
      ensures Requests() == C.Next(old(Requests()), C.Call)
      ensures fresh(pending.Values - old(pending.Values))
    {
      if !running {
        callLog := callLog + [C.NotRunning];
        return "";
      }
      id := ids.NextId();
      var slot := new PendingRequest();
      pending := pending[id := slot];
      calls := calls[id := C.Sending];
      callLog := callLog + [C.Registered(id)];
      assert Slots() == old(Slots())[id := C.FRESH];
    }

    /** The write has ended; the caller waits for its reply, or unwinds. */
    method MessageSent(id: string, ok: bool)
      requires Valid() && C.Enabled(Requests(), C.Sent(id, ok))
      modifies this`pending, this`calls, this`callLog
      ensures Valid() && pending.Values <= old(pending.Values)
      ensures Requests() == C.Next(old(Requests()), C.Sent(id, ok))
    {
      if ok {
        calls := calls[id := C.Waiting];
      } else {
        Forget(id, C.SendFailed);
      }
    }

    /** The `finally` of send_request. */
    method Forget(id: string, result: C.Result)
      requires Valid()
      modifies this`pending, this`calls, this`callLog
      ensures Valid() && pending.Values <= old(pending.Values)
      ensures Requests() == C.Finish(old(Requests()), id, result)
    {
      pending := pending - {id};
      calls := calls - {id};
      callLog := callLog + [C.Finished(id, result)];
      assert Slots() == old(Slots()) - {id};
    }

    /** Routes a message to the call it answers, or to the event handlers. */
    method DispatchMessage(m: C.Inbound) returns (toHandlers: bool)
      requires Valid()
      modifies this`callLog, pending.Values
      ensures Valid() && pending == old(pending)
      ensures Requests() == C.Next(old(Requests()), C.Arrive(m))
      ensures toHandlers <==> m.clientId == "" || m.clientId !in pending
    {
      if m.clientId != "" && m.clientId in pending {
        var slot := pending[m.clientId];
        slot.outcome := if m.isError then C.Refusal(m) else C.Reply(m);
        slot.isSet := true;
        callLog := callLog + [C.Arrived(m, true)];
        toHandlers := false;
        assert Slots() == old(Slots())[m.clientId := C.Resolve(m)];
      } else {
        callLog := callLog + [C.Arrived(m, false)];
        toHandlers := true;
        assert Slots() == old(Slots());
      }
    }

    /** The caller's event is set: read the slot, and unwind. */
    method WakeCaller(id: string) returns (result: C.Result)
      requires Valid() && C.Enabled(Requests(), C.Wake(id))
      modifies this`pending, this`calls, this`callLog
      ensures Valid() && pending.Values <= old(pending.Values)
      ensures Requests() == C.Next(old(Requests()), C.Wake(id))
      ensures callLog == old(callLog) + [C.Finished(id, result)]
    {
      var outcome := pending[id].outcome;
      if !running {
        result := C.Closed;
      } else {
        match outcome
        case Unresolved => result := C.Closed;
        case ConnectionLost => result := C.Closed;
        case Refusal(m) => result := C.ApiError(m);
        case Reply(m) => result := C.Answered(m);
      }
      Forget(id, result);
    }

    method ExpireCall(id: string)
      requires Valid() && C.Enabled(Requests(), C.Expire(id))
      modifies this`pending, this`calls, this`callLog
      ensures Valid() && pending.Values <= old(pending.Values)
      ensures Requests() == C.Next(old(Requests()), C.Expire(id))
    {
      Forget(id, C.TimedOut);
    }

    method CancelCall(id: string)
      requires Valid() && C.Enabled(Requests(), C.CancelCall(id))
      modifies this`pending, this`calls, this`callLog
      ensures Valid() && pending.Values <= old(pending.Values)
      ensures Requests() == C.Next(old(Requests()), C.CancelCall(id))
    {
      Forget(id, C.Cancelled);
    }

    /** Leaves the same failure in every slot there is, and sets each one's event. */
    method FailPending()
      requires Valid()
      modifies pending.Values
      ensures Slots() == map id | id in old(pending) :: C.Slot(true, C.ConnectionLost)
    {
      var left := pending.Keys;
      while left != {}
        invariant left <= pending.Keys && pending == old(pending)
        invariant forall id | id in pending.Keys - left :: pending[id].Slot() == C.Slot(true, C.ConnectionLost)
      {
        var id :| id in left;
        pending[id].outcome := C.ConnectionLost;
        pending[id].isSet := true;
        left := left - {id};
      }
    }

    /** Stops the protocol and wakes every caller. */
    method FailEverything()
      requires Valid()
      modifies this`running, this`callLog, pending.Values
      ensures Requests() == C.Next(old(Requests()), C.FailAll)
      ensures Link() == old(Link()).(running := false)
    {
      running := false;
      FailPending();
      callLog := callLog + [C.AllFailed];
    }

    // -------------------------------------------------------------------
    // Reconnection
    // -------------------------------------------------------------------

    /** Up to the first listener: record the report, and claim the reconnection. */
    method HandleDisconnect(t: L.TaskId)
      requires Valid() && L.Enabled(config, Link(), L.Report(t))
      modifies this`reconnecting, this`redoRequested, this`frames, this`linkLog
      ensures Valid()
      ensures Link() == L.Next(config, old(Link()), L.Report(t)) && Requests() == old(Requests())
    {
      if !running { return; }
      if reconnecting {
        redoRequested := true;
        linkLog := linkLog + [L.Reported];
        return;
      }
      if !serving { return; }
      reconnecting := true;
      frames := frames[t := L.Notifying(0)];
      linkLog := linkLog + [L.Reported];
    }

    /** The supervisor calls its next listener; what the one before it raised has been logged. */
    method CallListener(t: L.TaskId, previous: L.Outcome)
      requires Valid() && L.Enabled(config, Link(), L.Notify(t, previous))
      modifies this`frames, this`linkLog
      ensures Valid()
      ensures Link() == L.Next(config, old(Link()), L.Notify(t, previous)) && Requests() == old(Requests())
    {
      match frames[t]
      case Notifying(k) =>
        linkLog := linkLog + [L.Lost(k)];
        frames := frames[t := L.Notifying(k + 1)];
      case Restoring(k) =>
        linkLog := linkLog + [L.Restored(k)];
        frames := frames[t := L.Restoring(k + 1)];
      case Renotifying(k) =>
        linkLog := linkLog + [L.Lost(k)];
        frames := frames[t := L.Renotifying(k + 1)];
    }

    /** The end of handle_disconnect. */
    method SpawnReconnection(t: L.TaskId, previous: L.Outcome, child: L.TaskId)
      requires Valid() && L.Enabled(config, Link(), L.Detected(t, previous, child))
      modifies this`frames, this`linkLog
      ensures Valid()
      ensures Link() == L.Next(config, old(Link()), L.Detected(t, previous, child)) && Requests() == old(Requests())
    {
      frames := frames - {t};
      if serving {
        frames := frames[child := L.Scheduled];
      } else {
        linkLog := linkLog + [L.DetectorDied];
      }
    }

    /** The top of the loop, up to the teardown of the old transport: the reader that
        has begun on the dead stream is cancelled. */
    method BeginPass(t: L.TaskId)
      requires Valid() && t in frames
      modifies this`redoRequested, this`frames, this`linkLog, readers, transport
      ensures Valid()
      ensures readers.Model() == R.Next(old(readers.Model()), R.PassBegins)
      ensures Link() == L.LoopTop(old(Link()), t) && Requests() == old(Requests())
    {
      EnterPass(t);
      readers.CancelBegun();
      var tearsDown := transport.Close();
    }

    method EnterPass(t: L.TaskId)
      modifies this`redoRequested, this`frames, this`linkLog
      ensures Link() == old(Link()).(redo := false, tasks := old(frames)[t := L.Closing], log := old(linkLog) + [L.PassBegun])
    {
      redoRequested := false;
      linkLog := linkLog + [L.PassBegun];
      frames := frames[t := L.Closing];
    }

    /** However the teardown has ended, the pass goes on; only `_reconnect` refuses
        outright, when reconnection is disabled. */
    method TransportClosed(t: L.TaskId, how: Teardown) returns (abandoned: bool)
      requires Valid() && L.Enabled(config, Link(), L.Closed(t, Ending(how)))
      modifies this, pending.Values
      ensures Valid() && pending == old(pending)
      ensures Link() == L.Next(config, old(Link()), L.Closed(t, Ending(how)))
      ensures !abandoned ==> frames == old(frames)[t := L.Connecting(0)]
      ensures abandoned <==> config.budget == L.AtMost(0)
      ensures Requests() == if abandoned then C.Next(old(Requests()), C.FailAll) else old(Requests())
    {
      var ended := transport.TornDown(how);     // and what it raised, if anything, is dropped
      abandoned := config.budget == L.AtMost(0);
      if abandoned {
        Abandon(t);
      } else {
        frames := frames[t := L.Connecting(0)];
      }
    }

    /** One connection attempt, and what the retry loop does with how it ended. A
        new reader is spawned on a new stream. */
    method ConnectAttempted(t: L.TaskId, raw: L.Outcome) returns (abandoned: bool)
      requires Valid() && L.Enabled(config, Link(), L.Attempted(t, raw))
      modifies this`running, this`stopping, this`reconnecting, this`redoRequested, this`frames, this`linkLog, this`callLog
      modifies readers, transport, pending.Values
      ensures Valid() && pending == old(pending)
      ensures Link() == L.Next(config, old(Link()), L.Attempted(t, raw))
      ensures abandoned <==> t !in frames
      ensures Requests() == if abandoned then C.Next(old(Requests()), C.FailAll) else old(Requests())
      ensures readers.Model() == if raw.Returned? && serving then R.Spawn(old(readers.Model())) else old(readers.Model())
      ensures raw.Returned? && serving ==> readers.alive == old(readers.alive) + {old(readers.next)}
    {
      var o := transport.Connect(raw);
      abandoned := false;
      if o.Returned? {
        Reconnected(t);
      } else {
        abandoned := AttemptFailed(t);
      }
    }

    /** Out of the retry loop: a reader for the new stream, and on to the listeners. */
    method Reconnected(t: L.TaskId)
      requires frames.Keys == {t} && reconnecting && transport.stream
      modifies this`frames, this`linkLog, readers
      ensures OneFlight()
      ensures Link() == old(Link()).(tasks := old(frames)[t := L.Restoring(0)], log := old(linkLog) + [L.Connected])
      ensures readers.Model() == if serving then R.Spawn(old(readers.Model())) else old(readers.Model())
    {
      linkLog := linkLog + [L.Connected];
      frames := frames[t := L.Restoring(0)];
      if serving { readers.SpawnReader(); }
    }

    /** The retry loop: try again, unless the budget is used up. */
    method AttemptFailed(t: L.TaskId) returns (abandoned: bool)
      requires Valid() && t in frames && frames[t].Connecting?
      modifies this`running, this`stopping, this`reconnecting, this`redoRequested, this`frames, this`linkLog, this`callLog
      modifies pending.Values
      ensures Valid() && pending == old(pending)
      ensures Link() == L.AfterAttempt(config, old(Link()), t, L.Raised(L.OtherFault))
      ensures abandoned <==> t !in frames
      ensures Requests() == if abandoned then C.Next(old(Requests()), C.FailAll) else old(Requests())
    {
      var failures := frames[t].failures + 1;
      linkLog := linkLog + [L.ConnectFailed];
      abandoned := config.budget.AtMost? && failures >= config.budget.attempts;
      if abandoned {
        Abandon(t);
      } else {
        frames := frames[t := L.Connecting(failures)];
      }
    }

    /** `_abandon`, then the `finally` that lowers the flags: stop, wake every
        caller, and raise unless reconnection was disabled. */
    method Abandon(t: L.TaskId)
      requires Valid() && t in frames
      modifies this`running, this`stopping, this`reconnecting, this`redoRequested, this`frames, this`linkLog, this`callLog
      modifies pending.Values
      ensures Valid() && pending == old(pending) && ids.counter == old(ids.counter)
      ensures Link() == L.GiveUp(config, old(Link()), t, L.ConnectionFailed)
      ensures Requests() == C.Next(old(Requests()), C.FailAll)
    {
      FailEverything();
      LowerFlags(t);
    }

    /** Giving up ends the reconnection task, by an exception unless reconnection was disabled. */
    method LowerFlags(t: L.TaskId)
      requires !running && OneFlight() && t in frames
      modifies this`stopping, this`reconnecting, this`redoRequested, this`frames, this`linkLog
      ensures OneFlight()
      ensures Link() == L.GiveUp(config, old(Link()), t, L.ConnectionFailed)
    {
      var raises := config.budget != L.AtMost(0);
      stopping := stopping || raises;
      reconnecting := false;
      redoRequested := false;
      frames := frames - {t};
      linkLog := linkLog + [L.GaveUp(true, raises)];
    }

    /** The last listener has been told: go round again, or lower the flags. */
    method FanOutDone(t: L.TaskId, previous: L.Outcome)
      requires Valid() && L.Enabled(config, Link(), L.Notified(t, previous))
      modifies this`reconnecting, this`redoRequested, this`frames, this`linkLog, readers, transport
      ensures Valid()
      ensures Link() == L.Next(config, old(Link()), L.Notified(t, previous)) && Requests() == old(Requests())
      ensures readers.Model() == if old(frames[t]).Renotifying? then R.Next(old(readers.Model()), R.PassBegins) else old(readers.Model())
    {
      if frames[t].Renotifying? {
        BeginPass(t);
      } else if redoRequested {
        frames := frames[t := L.Renotifying(0)];
      } else {
        reconnecting := false;
        redoRequested := false;
        frames := frames - {t};
      }
    }

    // -------------------------------------------------------------------
    // Serving
    // -------------------------------------------------------------------

    method Stop()
      requires Valid()
      modifies this`running, this`stopping, this`linkLog, this`callLog
      ensures Valid()
      ensures Link() == L.Next(config, old(Link()), L.Stop) && Requests() == C.Next(old(Requests()), C.Stop)
    {
      running := false;
      stopping := true;
      linkLog := linkLog + [L.Interrupted];
      callLog := callLog + [C.Stopped];
    }

    /** Cancellation reaches a task inside the reconnection code. */
    method TaskCancelled(t: L.TaskId)
      requires Valid() && L.Enabled(config, Link(), L.Cancel(t))
      modifies this`reconnecting, this`redoRequested, this`frames, this`linkLog
      ensures Valid()
      ensures Link() == L.Next(config, old(Link()), L.Cancel(t)) && Requests() == old(Requests())
    {
      if frames[t].Notifying? {
        linkLog := linkLog + [L.DetectorDied];
      } else {
        reconnecting := false;
        redoRequested := false;
      }
      frames := frames - {t};
    }

    /** The `finally` of serve, with no reader left and no reconnection under way. */
    method ServeExits()
      requires Valid() && L.Enabled(config, Link(), L.Finish) && R.Enabled(readers.Model(), R.ServeExits)
      modifies this`running, this`serving, this`callLog, readers, pending.Values
      ensures Valid() && readers.Model() == R.Next(old(readers.Model()), R.ServeExits)
      ensures Link() == L.Next(config, old(Link()), L.Finish) && Requests() == C.Next(old(Requests()), C.FailAll)
    {
      FailEverything();
      serving := false;
      readers.ForgetScope();
    }

    /** Connected and served once more, on the same object. */
    method ServeAgain()
      requires Valid() && L.Enabled(config, Link(), L.Serve) && !running && R.Enabled(readers.Model(), R.ServesAgain)
      modifies this`running, this`serving, this`stopping, this`linkLog, this`callLog
      modifies readers, transport
      ensures Valid() && readers.Model() == R.Next(old(readers.Model()), R.ServesAgain)
      ensures readers.alive == {old(readers.next)}
      ensures Link() == L.Next(config, old(Link()), L.Serve) && Requests() == C.Next(old(Requests()), C.Serve)
    {
      RaiseFlags();
      readers.SpawnReader();
      var o := transport.Connect(L.Returned);
    }

    method RaiseFlags()
      modifies this`running, this`serving, this`stopping, this`linkLog, this`callLog
      ensures Link() == old(Link()).(running := true, serving := true, stopping := false, log := old(linkLog) + [L.Served])
      ensures Requests() == old(Requests()).(running := true, log := old(callLog) + [C.ServedAgain])
    {
      running, serving, stopping := true, true, false;
      linkLog := linkLog + [L.Served];
      callLog := callLog + [C.ServedAgain];
    }
  }
}
