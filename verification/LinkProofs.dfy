/** What every run of the reconnection state machine keeps. */
module LinkProofs {
  import opened Link

  // ---------------------------------------------------------------------
  // Reading the log from its start, as one listener sees it
  // ---------------------------------------------------------------------

  /** What a listener makes of what it is told. `Deaf` once cancellation has
      been requested; `Misled` when told of two losses, or two recoveries, in a row. */
  datatype Ear = Up | Down | Deaf | Misled

  datatype Reading = Reading(
    unserved: bool,     // a report was accepted and no pass has begun since
    linked: bool,       // the latest pass has connected
    calm: bool,         // no cancellation since the protocol was last served
    died: bool,         // some detector died on its way in
    failures: nat,      // failed attempts since the latest pass began
    exhausted: bool,    // the latest entry is the failure that used up the budget
    exact: bool,        // giving up has been exactly what the budget called for
    ear: Ear)

  const BLANK := Reading(false, false, false, false, 0, false, true, Up)

  function Hear(ear: Ear, listener: nat, e: Entry): Ear {
    if ear == Misled then Misled
    else
      match e
      case Served => Up
      case Interrupted => Deaf
      case Lost(l) =>
        if l != listener || ear == Deaf then ear else if ear == Up then Down else Misled
      case Restored(l) =>
        if l != listener || ear == Deaf then ear else if ear == Down then Up else Misled
      case _ => ear
  }

  function Observe(c: Config, listener: nat, r: Reading, e: Entry): Reading {
    var failures := if e == PassBegun then 0 else if e == ConnectFailed then r.failures + 1 else r.failures;
    Reading(
      e == Reported || (e != PassBegun && e != Served && r.unserved),
      e == Served || e == Connected || (e != PassBegun && r.linked),
      e == Served || (e != Interrupted && r.calm),
      e == DetectorDied || r.died,
      failures,
      c.budget.AtMost? && e == ConnectFailed && failures >= c.budget.attempts,
      && r.exact
      && (e.GaveUp? ==> e.expected && e.raised == (c.budget != AtMost(0)))
      && (c.budget != AtMost(0) ==> (e.GaveUp? <==> r.exhausted))
      && (c.budget.AtMost? && e == ConnectFailed ==> failures <= c.budget.attempts)
      && (c.budget == AtMost(0) ==> e != Connected && e != ConnectFailed),
      Hear(r.ear, listener, e))
  }

  function Read(c: Config, listener: nat, log: seq<Entry>): Reading {
    if log == [] then BLANK
    else Observe(c, listener, Read(c, listener, log[..|log| - 1]), log[|log| - 1])
  }

  lemma ReadOn(c: Config, listener: nat, log: seq<Entry>, e: Entry)
    ensures Read(c, listener, log + [e]) == Observe(c, listener, Read(c, listener, log), e)
  {
    assert (log + [e])[..|log|] == log;
  }

  // ---------------------------------------------------------------------
  // The invariant
  // ---------------------------------------------------------------------

  /** Who is inside the reconnection code. */
  datatype Flight = Grounded | InFlight(task: TaskId, phase: Phase)

  predicate Carries(tasks: map<TaskId, Phase>, f: Flight) {
    match f
    case Grounded => tasks == map[]
    case InFlight(t, p) => tasks == map[t := p]
  }

  predicate PhaseFits(c: Config, s: State, r: Reading, p: Phase) {
    match p
    case Notifying(k) => k <= c.listeners
    case Scheduled => true
    case Closing => !s.connected && r.failures == 0
    case Connecting(n) => !s.connected && r.failures == n && c.budget != AtMost(0)
                          && (c.budget.AtMost? ==> n < c.budget.attempts)
    case Restoring(k) => k <= c.listeners && r.linked
    case Renotifying(k) => k <= c.listeners && r.linked
  }

  /** A single task is inside the reconnection code exactly when the flag is up,
      unless a detector died on its way in. */
  predicate SingleFlight(c: Config, s: State, r: Reading, f: Flight) {
    && Carries(s.tasks, f)
    && (f.InFlight? ==> s.reconnecting && PhaseFits(c, s, r, f.phase))
    && (if r.died then s.reconnecting && f == Grounded else s.reconnecting <==> f.InFlight?)
    && (s.running ==> s.serving)
  }

  /** The task will begin another pass whatever the flags say. */
  predicate BeforePass(p: Phase) { p.Notifying? || p.Scheduled? || p.Renotifying? }

  predicate NothingLost(s: State, r: Reading, f: Flight) {
    s.running && !s.stopping && !r.died ==>
      && (r.unserved ==> f.InFlight? && (s.redo || BeforePass(f.phase)))
      && (f == Grounded ==> r.linked && s.connected)
      && (f.InFlight? && (f.phase.Restoring? || f.phase.Renotifying?) ==> s.connected)
  }

  function Expected(p: Phase, listener: nat): Ear {
    match p
    case Notifying(k) => if listener < k then Down else Up
    case Renotifying(k) => if listener < k then Down else Up
    case Restoring(k) => if listener < k then Up else Down
    case _ => Down
  }

  predicate Alternates(c: Config, listener: nat, s: State, r: Reading, f: Flight) {
    && (s.stopping && (s.running || f.InFlight?) ==> !r.calm)
    && r.ear != Misled
    && (!r.calm ==> r.ear == Deaf)
    && (listener < c.listeners && r.calm && f.InFlight? ==> r.ear == Expected(f.phase, listener))
    && (listener < c.listeners && r.calm && f == Grounded && s.running && !r.died ==> r.ear == Up)
  }

  predicate Fits(c: Config, listener: nat, s: State, r: Reading, f: Flight) {
    && SingleFlight(c, s, r, f)
    && NothingLost(s, r, f)
    && Alternates(c, listener, s, r, f)
    && r.exact && !r.exhausted
  }

  ghost predicate Inv(c: Config, listener: nat, s: State) {
    exists f :: Fits(c, listener, s, Read(c, listener, s.log), f)
  }

  lemma StartInv(c: Config, listener: nat)
    ensures Inv(c, listener, START)
  {
    assert [] + [Served] == START.log;
    ReadOn(c, listener, [], Served);
    assert Fits(c, listener, START, Read(c, listener, START.log), Grounded);
  }

  // One lemma for each way a state moves on; `r` is the reading of its log.

  lemma ToldOfLoss(c: Config, l: nat, s: State, r: Reading, t: TaskId, k: nat, again: bool)
    requires k < c.listeners
    requires Fits(c, l, s, r, InFlight(t, if again then Renotifying(k) else Notifying(k)))
    ensures var p := if again then Renotifying(k + 1) else Notifying(k + 1);
            Fits(c, l, s.(tasks := map[t := p], log := s.log + [Lost(k)]), Observe(c, l, r, Lost(k)), InFlight(t, p))
  {
  }

  lemma ToldOfRecovery(c: Config, l: nat, s: State, r: Reading, t: TaskId, k: nat)
    requires k < c.listeners
    requires Fits(c, l, s, r, InFlight(t, Restoring(k)))
    ensures Fits(c, l, s.(tasks := map[t := Restoring(k + 1)], log := s.log + [Restored(k)]),
                 Observe(c, l, r, Restored(k)), InFlight(t, Restoring(k + 1)))
  {
  }

  lemma BeginsPass(c: Config, l: nat, s: State, r: Reading, t: TaskId, p: Phase)
    requires p == Scheduled || p == Renotifying(c.listeners)
    requires Fits(c, l, s, r, InFlight(t, p))
    ensures Fits(c, l, s.(redo := false, connected := false, tasks := map[t := Closing], log := s.log + [PassBegun]),
                 Observe(c, l, r, PassBegun), InFlight(t, Closing))
  {
  }

  lemma Connects(c: Config, l: nat, s: State, r: Reading, t: TaskId, n: nat)
    requires Fits(c, l, s, r, InFlight(t, Connecting(n)))
    ensures Fits(c, l, s.(connected := true, tasks := map[t := Restoring(0)], log := s.log + [Connected]),
                 Observe(c, l, r, Connected), InFlight(t, Restoring(0)))
  {
  }

  lemma FailsToConnect(c: Config, l: nat, s: State, r: Reading, t: TaskId, n: nat)
    requires Fits(c, l, s, r, InFlight(t, Connecting(n)))
    requires c.budget.AtMost? ==> n + 1 < c.budget.attempts
    ensures Fits(c, l, s.(tasks := map[t := Connecting(n + 1)], log := s.log + [ConnectFailed]),
                 Observe(c, l, r, ConnectFailed), InFlight(t, Connecting(n + 1)))
  {
  }

  /** `used` is the log at the moment the budget is found to be used up. */
  lemma GivesUp(c: Config, l: nat, s: State, r: Reading, f: Flight, used: Reading, log: seq<Entry>)
    requires c.budget.AtMost? && f.InFlight?
    requires Fits(c, l, s, r, f)
    requires if c.budget == AtMost(0) then used == r
             else used == Observe(c, l, r, ConnectFailed) && f.phase == Connecting(c.budget.attempts - 1)
    ensures var raised := c.budget != AtMost(0);
            Fits(c, l, State(false, s.serving, false, false, s.connected, s.stopping || raised, map[], log),
                 Observe(c, l, used, GaveUp(true, raised)), Grounded)
  {
  }

  // ---------------------------------------------------------------------
  // Steps
  // ---------------------------------------------------------------------

  lemma AfterReport(c: Config, l: nat, s: State, f: Flight, t: TaskId)
    requires Fits(c, l, s, Read(c, l, s.log), f) && t !in s.tasks
    ensures Inv(c, l, HandleDisconnect(s, t))
  {
    var s' := HandleDisconnect(s, t);
    ReadOn(c, l, s.log, Reported);
    var f' := if s.running && !s.reconnecting then InFlight(t, Notifying(0)) else f;
    assert Fits(c, l, s', Read(c, l, s'.log), f');
  }

  lemma AfterLoss(c: Config, l: nat, s: State, t: TaskId, k: nat, again: bool)
    requires k < c.listeners
    requires Fits(c, l, s, Read(c, l, s.log), InFlight(t, if again then Renotifying(k) else Notifying(k)))
    ensures var p := if again then Renotifying(k + 1) else Notifying(k + 1);
            Inv(c, l, s.(tasks := map[t := p], log := s.log + [Lost(k)]))
  {
    ToldOfLoss(c, l, s, Read(c, l, s.log), t, k, again);
    ReadOn(c, l, s.log, Lost(k));
  }

  lemma AfterRecovery(c: Config, l: nat, s: State, t: TaskId, k: nat)
    requires k < c.listeners && Fits(c, l, s, Read(c, l, s.log), InFlight(t, Restoring(k)))
    ensures Inv(c, l, s.(tasks := map[t := Restoring(k + 1)], log := s.log + [Restored(k)]))
  {
    ToldOfRecovery(c, l, s, Read(c, l, s.log), t, k);
    ReadOn(c, l, s.log, Restored(k));
  }

  /** The three places a fan-out can be suspended in. */
  lemma Called(c: Config, s: State, t: TaskId, p: Phase, o: Outcome)
    requires s.tasks == map[t := p]
    ensures CallListener(c, s, t, o) ==
      match p
      case Notifying(k) => s.(tasks := map[t := Notifying(k + 1)], log := s.log + [Lost(k)])
      case Renotifying(k) => s.(tasks := map[t := Renotifying(k + 1)], log := s.log + [Lost(k)])
      case Restoring(k) => s.(tasks := map[t := Restoring(k + 1)], log := s.log + [Restored(k)])
      case _ => s
  {
  }

  lemma AfterNotify(c: Config, l: nat, s: State, f: Flight, t: TaskId, o: Outcome)
    requires Fits(c, l, s, Read(c, l, s.log), f) && Enabled(c, s, Notify(t, o))
    ensures Inv(c, l, CallListener(c, s, t, o))
  {
    assert f == InFlight(t, f.phase);
    match f.phase
    case Notifying(k) => LossTold(c, l, s, t, k, false, o);
    case Renotifying(k) => LossTold(c, l, s, t, k, true, o);
    case Restoring(k) => RecoveryTold(c, l, s, t, k, o);
  }

  lemma LossTold(c: Config, l: nat, s: State, t: TaskId, k: nat, again: bool, o: Outcome)
    requires k < c.listeners
    requires Fits(c, l, s, Read(c, l, s.log), InFlight(t, if again then Renotifying(k) else Notifying(k)))
    ensures Inv(c, l, CallListener(c, s, t, o))
  {
    Called(c, s, t, if again then Renotifying(k) else Notifying(k), o);
    AfterLoss(c, l, s, t, k, again);
  }

  lemma RecoveryTold(c: Config, l: nat, s: State, t: TaskId, k: nat, o: Outcome)
    requires k < c.listeners && Fits(c, l, s, Read(c, l, s.log), InFlight(t, Restoring(k)))
    ensures Inv(c, l, CallListener(c, s, t, o))
  {
    Called(c, s, t, Restoring(k), o);
    AfterRecovery(c, l, s, t, k);
  }

  lemma AfterDetected(c: Config, l: nat, s: State, f: Flight, t: TaskId, o: Outcome, child: TaskId)
    requires Fits(c, l, s, Read(c, l, s.log), f) && Enabled(c, s, Detected(t, o, child))
    ensures Inv(c, l, SpawnTask(c, s, t, o, child))
  {
    var s' := SpawnTask(c, s, t, o, child);
    ReadOn(c, l, s.log, DetectorDied);
    assert Fits(c, l, s', Read(c, l, s'.log), if s.serving then InFlight(child, Scheduled) else Grounded);
  }

  lemma AfterLoopTop(c: Config, l: nat, s: State, f: Flight, t: TaskId)
    requires Fits(c, l, s, Read(c, l, s.log), f) && f.InFlight? && f.task == t
    requires f.phase == Scheduled || f.phase == Renotifying(c.listeners)
    ensures Inv(c, l, LoopTop(s, t))
  {
    ReadOn(c, l, s.log, PassBegun);
    BeginsPass(c, l, s, Read(c, l, s.log), t, f.phase);
    assert Fits(c, l, LoopTop(s, t), Read(c, l, LoopTop(s, t).log), InFlight(t, Closing));
  }

  lemma AfterClosed(c: Config, l: nat, s: State, f: Flight, t: TaskId, o: Outcome)
    requires Fits(c, l, s, Read(c, l, s.log), f) && Enabled(c, s, Closed(t, o))
    ensures Inv(c, l, AfterClose(c, s, t, o))
  {
    if c.budget == AtMost(0) {
      AfterRefusal(c, l, s, f, t, o);
    } else {
      var s' := s.(tasks := map[t := Connecting(0)]);
      assert AfterClose(c, s, t, o) == s';
      assert Fits(c, l, s', Read(c, l, s'.log), InFlight(t, Connecting(0)));
    }
  }

  lemma AfterRefusal(c: Config, l: nat, s: State, f: Flight, t: TaskId, o: Outcome)
    requires Fits(c, l, s, Read(c, l, s.log), f) && Enabled(c, s, Closed(t, o)) && c.budget == AtMost(0)
    ensures Inv(c, l, AfterClose(c, s, t, o))
  {
    var s' := AfterClose(c, s, t, o);
    ReadOn(c, l, s.log, GaveUp(true, false));
    GivesUp(c, l, s, Read(c, l, s.log), f, Read(c, l, s.log), s'.log);
    assert Fits(c, l, s', Read(c, l, s'.log), Grounded);
  }

  lemma AfterAttempted(c: Config, l: nat, s: State, f: Flight, t: TaskId, o: Outcome)
    requires Fits(c, l, s, Read(c, l, s.log), f) && Enabled(c, s, Attempted(t, o))
    ensures Inv(c, l, AfterAttempt(c, s, t, o))
  {
    if o.Returned? {
      AfterConnected(c, l, s, t, f.phase.failures, o);
    } else if c.budget.AtMost? && f.phase.failures + 1 >= c.budget.attempts {
      AfterLastAttempt(c, l, s, f, t, o);
    } else {
      AfterFailedAttempt(c, l, s, t, f.phase.failures, o);
    }
  }

  lemma AfterConnected(c: Config, l: nat, s: State, t: TaskId, n: nat, o: Outcome)
    requires Fits(c, l, s, Read(c, l, s.log), InFlight(t, Connecting(n))) && o.Returned?
    ensures Inv(c, l, AfterAttempt(c, s, t, o))
  {
    ReadOn(c, l, s.log, Connected);
    Connects(c, l, s, Read(c, l, s.log), t, n);
    assert AfterAttempt(c, s, t, o)
        == s.(connected := true, tasks := map[t := Restoring(0)], log := s.log + [Connected]);
  }

  lemma AfterFailedAttempt(c: Config, l: nat, s: State, t: TaskId, n: nat, o: Outcome)
    requires Fits(c, l, s, Read(c, l, s.log), InFlight(t, Connecting(n))) && o.Raised?
    requires c.budget.AtMost? ==> n + 1 < c.budget.attempts
    ensures Inv(c, l, AfterAttempt(c, s, t, o))
  {
    FailedTo(c, s, t, n, o);
    var s' := s.(tasks := map[t := Connecting(n + 1)], log := s.log + [ConnectFailed]);
    ReadOn(c, l, s.log, ConnectFailed);
    FailsToConnect(c, l, s, Read(c, l, s.log), t, n);
    assert Fits(c, l, s', Read(c, l, s'.log), InFlight(t, Connecting(n + 1)));
  }

  lemma FailedTo(c: Config, s: State, t: TaskId, n: nat, o: Outcome)
    requires s.tasks == map[t := Connecting(n)] && o.Raised? && (c.budget.AtMost? ==> n + 1 < c.budget.attempts)
    ensures AfterAttempt(c, s, t, o) == s.(tasks := map[t := Connecting(n + 1)], log := s.log + [ConnectFailed])
  {
  }

  lemma AfterLastAttempt(c: Config, l: nat, s: State, f: Flight, t: TaskId, o: Outcome)
    requires Fits(c, l, s, Read(c, l, s.log), f) && Enabled(c, s, Attempted(t, o))
    requires o.Raised? && c.budget.AtMost? && f.phase.failures + 1 >= c.budget.attempts
    ensures Inv(c, l, AfterAttempt(c, s, t, o))
  {
    var r := Read(c, l, s.log);
    var log := s.log + [ConnectFailed] + [GaveUp(true, true)];
    ReadOn(c, l, s.log, ConnectFailed);
    ReadOn(c, l, s.log + [ConnectFailed], GaveUp(true, true));
    GivesUp(c, l, s, r, f, Observe(c, l, r, ConnectFailed), log);
    assert AfterAttempt(c, s, t, o) == State(false, s.serving, false, false, s.connected, true, map[], log);
  }

  lemma AfterNotified(c: Config, l: nat, s: State, f: Flight, t: TaskId, o: Outcome)
    requires Fits(c, l, s, Read(c, l, s.log), f) && Enabled(c, s, Notified(t, o))
    ensures Inv(c, l, AfterFanOut(c, s, t, o))
  {
    if f.phase.Renotifying? {
      AfterLoopTop(c, l, s, f, t);
    } else {
      var s' := AfterFanOut(c, s, t, o);
      assert Fits(c, l, s', Read(c, l, s'.log), if s.redo then InFlight(t, Renotifying(0)) else Grounded);
    }
  }

  lemma AfterCancel(c: Config, l: nat, s: State, f: Flight, t: TaskId)
    requires Fits(c, l, s, Read(c, l, s.log), f) && Enabled(c, s, Cancel(t))
    ensures Inv(c, l, CancelTask(s, t))
  {
    if s.tasks[t].Notifying? { AfterDetectorCancelled(c, l, s, f, t); } else { AfterReconnectionCancelled(c, l, s, f, t); }
  }

  lemma AfterDetectorCancelled(c: Config, l: nat, s: State, f: Flight, t: TaskId)
    requires Fits(c, l, s, Read(c, l, s.log), f) && Enabled(c, s, Cancel(t)) && s.tasks[t].Notifying?
    ensures Inv(c, l, CancelTask(s, t))
  {
    ReadOn(c, l, s.log, DetectorDied);
    var s' := s.(tasks := map[], log := s.log + [DetectorDied]);
    assert CancelTask(s, t) == s';
    assert Fits(c, l, s', Read(c, l, s'.log), Grounded);
  }

  lemma AfterReconnectionCancelled(c: Config, l: nat, s: State, f: Flight, t: TaskId)
    requires Fits(c, l, s, Read(c, l, s.log), f) && Enabled(c, s, Cancel(t)) && !s.tasks[t].Notifying?
    ensures Inv(c, l, CancelTask(s, t))
  {
    var s' := s.(reconnecting := false, redo := false, tasks := map[]);
    assert CancelTask(s, t) == s';
    assert Fits(c, l, s', Read(c, l, s'.log), Grounded);
  }

  lemma AfterInterrupt(c: Config, l: nat, s: State, f: Flight, running: bool)
    requires Fits(c, l, s, Read(c, l, s.log), f) && (running ==> s.running)
    ensures Inv(c, l, s.(running := running, stopping := true, log := s.log + [Interrupted]))
  {
    ReadOn(c, l, s.log, Interrupted);
    var s' := s.(running := running, stopping := true, log := s.log + [Interrupted]);
    assert Fits(c, l, s', Read(c, l, s'.log), f);
  }

  lemma AfterFinish(c: Config, l: nat, s: State, f: Flight)
    requires Fits(c, l, s, Read(c, l, s.log), f) && Enabled(c, s, Finish)
    ensures Inv(c, l, Next(c, s, Finish))
  {
    assert Fits(c, l, Next(c, s, Finish), Read(c, l, s.log), f);
  }

  lemma AfterServe(c: Config, l: nat, s: State, f: Flight)
    requires Fits(c, l, s, Read(c, l, s.log), f) && Enabled(c, s, Serve)
    ensures Inv(c, l, Next(c, s, Serve))
  {
    ReadOn(c, l, s.log, Served);
    assert forall t: TaskId, p: Phase :: t in map[t := p];
    assert Fits(c, l, Next(c, s, Serve), Read(c, l, s.log + [Served]), Grounded);
  }

  /** Every step, by every task, keeps the invariant. */
  lemma StepInv(c: Config, l: nat, s: State, e: Event)
    requires Enabled(c, s, e) && Inv(c, l, s)
    ensures Inv(c, l, Next(c, s, e))
  {
    var f :| Fits(c, l, s, Read(c, l, s.log), f);
    match e
    case Report(t) => AfterReport(c, l, s, f, t);
    case Notify(t, o) => AfterNotify(c, l, s, f, t, o);
    case Detected(t, o, child) => AfterDetected(c, l, s, f, t, o, child);
    case Begin(t) => AfterLoopTop(c, l, s, f, t);
    case Closed(t, o) => AfterClosed(c, l, s, f, t, o);
    case Attempted(t, o) => AfterAttempted(c, l, s, f, t, o);
    case Notified(t, o) => AfterNotified(c, l, s, f, t, o);
    case Cancel(t) => AfterCancel(c, l, s, f, t);
    case Interrupt => AfterInterrupt(c, l, s, f, s.running);
    case Stop => AfterInterrupt(c, l, s, f, false);
    case Finish => AfterFinish(c, l, s, f);
    case Serve => AfterServe(c, l, s, f);
  }

  lemma {:induction false} RunInv(c: Config, l: nat, s: State, es: seq<Event>)
    requires Legal(c, s, es) && Inv(c, l, s)
    ensures Inv(c, l, Exec(c, s, es))
    decreases es
  {
    if es != [] {
      StepInv(c, l, s, es[0]);
      RunInv(c, l, Next(c, s, es[0]), es[1..]);
    }
  }
}
