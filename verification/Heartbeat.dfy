/** The heartbeat monitor: loops that sleep for an interval, look at how long the
    link has been silent, and send; over a clock that only moves when nothing is
    ready to run. */
module Heartbeat {

  type LoopId = nat

  datatype Config = Config(interval: nat, timeout: int)

  datatype Report = Report(at: int, silent: bool, elapsed: int, heardBefore: nat)

  datatype State = State(
    now: int,
    lastReceived: int,
    served: bool,                  // the monitor has its task group, and its handlers are registered
    started: int,                  // when the monitor was last started or restarted
    watched: bool,                 // and whether it was being served then
    reportedBefore: nat,           // and how many reports had been made
    scope: set<LoopId>,            // the loop the manager can cancel, if any has run
    sleeping: map<LoopId, int>,    // when each running loop wakes
    spawned: set<LoopId>,          // loops started and yet to run
    nextLoop: LoopId,
    marks: seq<int>,               // when the inactivity timer was reset
    reports: seq<Report>)

  /** As the monitor begins to be served. */
  function Begin(now: int): State {
    State(now, now, true, now, true, 0, {}, map[], {0}, 1, [now], [])
  }

  datatype Event =
    | Pass(time: nat)
    | Heard                                // a message reaches the event handlers
    | LoopRuns(loop: LoopId)               // its first step
    | LoopWakes(loop: LoopId, sent: bool)  // and whether its heartbeat went out
    | MonitorEnds                          // with no loop left, serve() returns
    | Restarted

  predicate Enabled(c: Config, s: State, e: Event) {
    match e
    case Pass(t) => s.spawned == {} && forall l | l in s.sleeping :: s.now + t <= s.sleeping[l]
    case Heard => s.served
    case LoopRuns(l) => l in s.spawned
    case LoopWakes(l, _) => l in s.sleeping && s.sleeping[l] == s.now
    case MonitorEnds => s.served && s.sleeping == map[] && s.spawned == {}
    case Restarted => true
  }

  function Reset(s: State): State { s.(lastReceived := s.now, marks := s.marks + [s.now]) }

  function Drop(s: State, l: LoopId, silent: bool): State {
    s.(sleeping := s.sleeping - {l},
       reports := s.reports + [Report(s.now, silent, s.now - s.lastReceived, |s.marks|)])
  }

  function Next(c: Config, s: State, e: Event): State
    requires Enabled(c, s, e)
  {
    match e
    case Pass(t) => s.(now := s.now + t)
    case Heard => Reset(s)
    case LoopRuns(l) => s.(scope := {l}, spawned := s.spawned - {l}, sleeping := s.sleeping[l := s.now + c.interval])
    case LoopWakes(l, sent) =>
      if 0 < c.timeout < s.now - s.lastReceived then Drop(s, l, true)
      else if !sent then Drop(s, l, false)
      else s.(sleeping := s.sleeping[l := s.now + c.interval])
    case MonitorEnds => s.(served := false, scope := {})
    case Restarted =>
      var s1 := Reset(s).(started := s.now, watched := s.served, reportedBefore := |s.reports|, sleeping := s.sleeping - s.scope);
      if s.served then s1.(spawned := s.spawned + {s.nextLoop}, nextLoop := s.nextLoop + 1) else s1
  }

  ghost predicate Legal(c: Config, s: State, es: seq<Event>)
    decreases |es|
  {
    es == [] || (Enabled(c, s, es[0]) && Legal(c, Next(c, s, es[0]), es[1..]))
  }

  ghost function Exec(c: Config, s: State, es: seq<Event>): State
    requires Legal(c, s, es)
    decreases |es|
  {
    if es == [] then s else Exec(c, Next(c, s, es[0]), es[1..])
  }

  // ---------------------------------------------------------------------
  // The timer
  // ---------------------------------------------------------------------

  ghost predicate TimerInv(s: State) {
    && s.marks != [] && s.lastReceived == s.marks[|s.marks| - 1] <= s.now
    && forall i, j | 0 <= i < j < |s.marks| :: s.marks[i] <= s.marks[j]
  }

  /** A report of silence stands between two resets more than the timeout apart. */
  ghost predicate Told(c: Config, marks: seq<int>, now: int, r: Report) {
    && 0 < r.heardBefore <= |marks| && r.at <= now
    && r.elapsed == r.at - marks[r.heardBefore - 1]
    && (r.heardBefore < |marks| ==> r.at <= marks[r.heardBefore])
    && (r.silent ==> 0 < c.timeout < r.elapsed <= c.timeout + c.interval)
  }

  ghost predicate ReportsInv(c: Config, s: State) {
    forall i | 0 <= i < |s.reports| :: Told(c, s.marks, s.now, s.reports[i])
  }

  /** Each running loop wakes before the link can have been silent for longer
      than a timeout and an interval. */
  ghost predicate LoopsInv(c: Config, s: State) {
    && (forall l | l in s.sleeping :: l < s.nextLoop && l !in s.spawned && s.now <= s.sleeping[l])
    && (forall l | l in s.spawned :: l < s.nextLoop)
    && (0 < c.timeout ==> forall l | l in s.sleeping :: s.sleeping[l] <= s.lastReceived + c.timeout + c.interval)
    && (s.spawned != {} ==> s.lastReceived == s.now)
  }

  ghost predicate Inv(c: Config, s: State) {
    TimerInv(s) && ReportsInv(c, s) && LoopsInv(c, s)
  }

  lemma ResetInv(c: Config, s: State)
    requires TimerInv(s) && ReportsInv(c, s)
    ensures TimerInv(Reset(s)) && ReportsInv(c, Reset(s))
  {
  }

  lemma DropInv(c: Config, s: State, l: LoopId, silent: bool)
    requires Inv(c, s) && l in s.sleeping && s.sleeping[l] == s.now
    requires silent ==> 0 < c.timeout < s.now - s.lastReceived
    ensures Inv(c, Drop(s, l, silent))
  {
  }

  lemma StepInv(c: Config, s: State, e: Event)
    requires Inv(c, s) && Enabled(c, s, e)
    ensures Inv(c, Next(c, s, e))
  {
    match e
    case Pass(t) =>
      forall i | 0 <= i < |s.reports| ensures Told(c, s.marks, s.now + t, s.reports[i]) {
        assert Told(c, s.marks, s.now, s.reports[i]);
      }
    case Heard => ResetInv(c, s);
    case LoopRuns(l) =>
    case LoopWakes(l, sent) =>
      if 0 < c.timeout < s.now - s.lastReceived { DropInv(c, s, l, true); }
      else if !sent { DropInv(c, s, l, false); }
    case MonitorEnds =>
    case Restarted => ResetInv(c, s);
  }

  lemma {:induction false} RunInv(c: Config, s: State, es: seq<Event>)
    requires Inv(c, s) && Legal(c, s, es)
    ensures Inv(c, Exec(c, s, es))
    decreases |es|
  {
    if es != [] {
      StepInv(c, s, es[0]);
      RunInv(c, Next(c, s, es[0]), es[1..]);
    }
  }

  /** A link is reported silent only when the timeout is on, and only after it
      has said nothing for longer than that but no longer than one interval more. */
  lemma SilenceIsMeasured(c: Config, start: int, es: seq<Event>, i: nat)
    requires Legal(c, Begin(start), es)
    requires var s := Exec(c, Begin(start), es); i < |s.reports| && s.reports[i].silent
    ensures var s := Exec(c, Begin(start), es);
            var r := s.reports[i];
            && 0 < c.timeout < r.elapsed <= c.timeout + c.interval
            && 0 < r.heardBefore <= |s.marks| && r.at == s.marks[r.heardBefore - 1] + r.elapsed
            && forall m | 0 <= m < |s.marks| :: s.marks[m] <= s.marks[r.heardBefore - 1] || r.at <= s.marks[m]
  {
    RunInv(c, Begin(start), es);
    var s := Exec(c, Begin(start), es);
    assert Told(c, s.marks, s.now, s.reports[i]);
  }

  /** No two resets further apart than this, and none still awaited for longer. */
  predicate NeverSilentFor(s: State, most: int) {
    && (forall i | 0 < i < |s.marks| :: s.marks[i] - s.marks[i - 1] <= most)
    && s.now - s.lastReceived <= most
  }

  /** A link whose messages are never more than the timeout apart is never
      reported silent. */
  lemma HeardIsNeverReported(c: Config, start: int, es: seq<Event>)
    requires Legal(c, Begin(start), es) && NeverSilentFor(Exec(c, Begin(start), es), c.timeout)
    ensures forall r | r in Exec(c, Begin(start), es).reports :: !r.silent
  {
    RunInv(c, Begin(start), es);
    var s := Exec(c, Begin(start), es);
    forall i | 0 <= i < |s.reports| ensures !s.reports[i].silent {
      assert Told(c, s.marks, s.now, s.reports[i]);
    }
  }

  /** Only a monitor that is served has loops. One that was served when it was last
      started or restarted has a loop still, or a report to show for it; and no
      report was made long after the timer was reset. */
  ghost predicate LeftInv(c: Config, s: State) {
    && s.started <= s.lastReceived
    && s.reportedBefore <= |s.reports|
    && (!s.watched ==> !s.served && |s.reports| == s.reportedBefore)
    && (!s.served ==> s.sleeping == map[] && s.spawned == {})
    && (s.watched && s.sleeping == map[] && s.spawned == {} ==> s.reportedBefore < |s.reports|)
    && (s.reportedBefore < |s.reports| ==> s.started <= s.reports[|s.reports| - 1].at)
    && (s.reports != [] && 0 < c.timeout ==> s.reports[|s.reports| - 1].at <= s.lastReceived + c.timeout + c.interval)
  }

  lemma StepLeft(c: Config, s: State, e: Event)
    requires Inv(c, s) && LeftInv(c, s) && Enabled(c, s, e)
    ensures LeftInv(c, Next(c, s, e))
  {
    var s' := Next(c, s, e);
    if e.LoopRuns? { assert e.loop in s'.sleeping; }
    if e.LoopWakes? && s'.reports == s.reports { assert e.loop in s'.sleeping; }
    if e.Restarted? && s.served { assert s.nextLoop in s'.spawned; }
  }

  lemma {:induction false} RunLeft(c: Config, s: State, es: seq<Event>)
    requires Inv(c, s) && LeftInv(c, s) && Legal(c, s, es)
    ensures LeftInv(c, Exec(c, s, es))
    decreases |es|
  {
    if es != [] {
      StepInv(c, s, es[0]);
      StepLeft(c, s, es[0]);
      RunLeft(c, Next(c, s, es[0]), es[1..]);
    }
  }

  /** Once the link has been silent for longer than the timeout and an interval,
      its loss has been reported since the monitor was last restarted exactly if
      that restart found the monitor being served; and if so, no later than that. */
  lemma SilenceIsReportedIff(c: Config, start: int, es: seq<Event>)
    requires Legal(c, Begin(start), es) && 0 < c.timeout
    requires var s := Exec(c, Begin(start), es); c.timeout + c.interval < s.now - s.lastReceived
    ensures var s := Exec(c, Begin(start), es);
            && (s.reportedBefore < |s.reports| <==> s.watched)
            && (s.watched ==> s.started <= s.reports[|s.reports| - 1].at <= s.lastReceived + c.timeout + c.interval)
  {
    RunInv(c, Begin(start), es);
    RunLeft(c, Begin(start), es);
    var s := Exec(c, Begin(start), es);
    assert s.sleeping == map[] by {
      if l :| l in s.sleeping { assert false; }
    }
  }

  /** A monitor that has ended is not brought back by any restart: it has no loop,
      hears nothing and reports nothing, whatever happens. */
  lemma {:induction false} EndedForGood(c: Config, s: State, es: seq<Event>)
    requires Legal(c, s, es) && !s.served && s.sleeping == map[] && s.spawned == {}
    ensures var s' := Exec(c, s, es);
            !s'.served && s'.sleeping == map[] && s'.spawned == {} && s'.reports == s.reports
    decreases |es|
  {
    if es != [] { EndedForGood(c, Next(c, s, es[0]), es[1..]); }
  }

  /** And it does end. The one loop it has reports a loss and returns, so that
      nothing is left to serve; the reconnection restarts a monitor that is gone,
      and from then on the link may be silent for any length of time. */
  lemma UnwatchedAfterOwnReport(c: Config, start: int, sent: bool, n: nat)
    requires sent ==> 0 < c.timeout < c.interval
    ensures var es := [LoopRuns(0), Pass(c.interval), LoopWakes(0, sent), MonitorEnds, Restarted, Pass(n)];
            && Legal(c, Begin(start), es)
            && var s := Exec(c, Begin(start), es);
               && s.sleeping == map[] && s.spawned == {} && |s.reports| == 1 == s.reportedBefore
               && !s.served && s.now - s.lastReceived == n
  {
    var s1 := Next(c, Begin(start), LoopRuns(0));
    var s2 := Next(c, s1, Pass(c.interval));
    var s3 := Next(c, s2, LoopWakes(0, sent));
    assert s3.sleeping == map[];
    var s4 := Next(c, s3, MonitorEnds);
    var s5 := Next(c, s4, Restarted);
    assert s5.sleeping == map[];
    Prepend(c, s5, Pass(n), []);
    Prepend(c, s4, Restarted, [Pass(n)]);
    Prepend(c, s3, MonitorEnds, [Restarted, Pass(n)]);
    Prepend(c, s2, LoopWakes(0, sent), [MonitorEnds, Restarted, Pass(n)]);
    Prepend(c, s1, Pass(c.interval), [LoopWakes(0, sent), MonitorEnds, Restarted, Pass(n)]);
    Prepend(c, Begin(start), LoopRuns(0), [Pass(c.interval), LoopWakes(0, sent), MonitorEnds, Restarted, Pass(n)]);
  }

  lemma Prepend(c: Config, s: State, e: Event, es: seq<Event>)
    requires Enabled(c, s, e) && Legal(c, Next(c, s, e), es)
    ensures Legal(c, s, [e] + es) && Exec(c, s, [e] + es) == Exec(c, Next(c, s, e), es)
  {
    assert ([e] + es)[1..] == es;
  }

  // ---------------------------------------------------------------------
  // The timer and the interval, on the events of a run
  // ---------------------------------------------------------------------

  /** When a message was heard, or the monitor restarted. */
  ghost function HeardAt(c: Config, s: State, es: seq<Event>): seq<int>
    requires Legal(c, s, es)
    decreases |es|
  {
    if es == [] then []
    else (if es[0] in {Heard, Restarted} then [s.now] else []) + HeardAt(c, Next(c, s, es[0]), es[1..])
  }

  lemma {:induction false} MarksAreHeard(c: Config, s: State, es: seq<Event>)
    requires Legal(c, s, es)
    ensures Exec(c, s, es).marks == s.marks + HeardAt(c, s, es)
    decreases |es|
  {
    if es == [] {
      assert s.marks + [] == s.marks;
    } else {
      MarksAreHeard(c, Next(c, s, es[0]), es[1..]);
      var first := if es[0] in {Heard, Restarted} then [s.now] else [];
      assert Next(c, s, es[0]).marks == s.marks + first;
      assert (s.marks + first) + HeardAt(c, Next(c, s, es[0]), es[1..]) == s.marks + (first + HeardAt(c, Next(c, s, es[0]), es[1..]));
    }
  }

  /** The inactivity timer runs from the last message that was heard, or from the
      start or restart of the monitor if that came later. */
  lemma TimerRunsFromLastHeard(c: Config, start: int, es: seq<Event>)
    requires Legal(c, Begin(start), es)
    ensures var times := [start] + HeardAt(c, Begin(start), es);
            Exec(c, Begin(start), es).marks == times && Exec(c, Begin(start), es).lastReceived == times[|times| - 1]
  {
    RunInv(c, Begin(start), es);
    MarksAreHeard(c, Begin(start), es);
  }

  /** When this loop last took a step: its first, or from a sleep. */
  ghost function LastStep(c: Config, s: State, es: seq<Event>, l: LoopId, at: int): int
    requires Legal(c, s, es)
    decreases |es|
  {
    if es == [] then at
    else LastStep(c, Next(c, s, es[0]), es[1..], l,
                  if es[0] == LoopRuns(l) || (es[0].LoopWakes? && es[0].loop == l) then s.now else at)
  }

  lemma {:induction false} RunSleeps(c: Config, s: State, es: seq<Event>, l: LoopId, at: int)
    requires Legal(c, s, es) && (l in s.sleeping ==> s.sleeping[l] == at + c.interval)
    ensures var s' := Exec(c, s, es); l in s'.sleeping ==> s'.sleeping[l] == LastStep(c, s, es, l, at) + c.interval
    decreases |es|
  {
    if es != [] {
      RunSleeps(c, Next(c, s, es[0]), es[1..], l,
                if es[0] == LoopRuns(l) || (es[0].LoopWakes? && es[0].loop == l) then s.now else at);
    }
  }

  /** A loop takes each of its steps one interval after the one before; and it goes
      on to the next, having sent its heartbeat, unless it finds the link silent for
      longer than the timeout or cannot send. */
  lemma StepsEveryInterval(c: Config, start: int, es: seq<Event>, l: LoopId, sent: bool)
    requires Legal(c, Begin(start), es) && Enabled(c, Exec(c, Begin(start), es), LoopWakes(l, sent))
    ensures var s, s' := Exec(c, Begin(start), es), Next(c, Exec(c, Begin(start), es), LoopWakes(l, sent));
            && s.now == LastStep(c, Begin(start), es, l, start) + c.interval
            && (l in s'.sleeping <==> sent && !(0 < c.timeout < s.now - s.lastReceived))
            && (l !in s'.sleeping <==> |s'.reports| == |s.reports| + 1)
  {
    RunSleeps(c, Begin(start), es, l, start);
  }

  // ---------------------------------------------------------------------
  // How many loops
  // ---------------------------------------------------------------------

  predicate Alive(s: State, l: LoopId) { l in s.sleeping || l in s.spawned }

  ghost predicate Single(s: State) { forall l, m | Alive(s, l) && Alive(s, m) :: l == m }

  ghost predicate AlwaysSingle(c: Config, s: State, es: seq<Event>)
    requires Legal(c, s, es)
    decreases |es|
  {
    Single(s) && (es != [] ==> AlwaysSingle(c, Next(c, s, es[0]), es[1..]))
  }

  /** No restart comes before the loop of the one before has taken its first step. */
  ghost predicate Unhurried(c: Config, s: State, es: seq<Event>)
    requires Legal(c, s, es)
    decreases |es|
  {
    es != [] ==> (es[0].Restarted? ==> s.spawned == {}) && Unhurried(c, Next(c, s, es[0]), es[1..])
  }

  /** A restart cancels the loop it can see, which is the last to have run. */
  ghost predicate InSight(s: State) {
    && (forall l | l in s.sleeping :: l in s.scope)
    && (forall l: LoopId | Alive(s, l) :: l < s.nextLoop)
    && (forall l | l in s.scope :: l < s.nextLoop)
    && (!s.served ==> s.spawned == {})
  }

  lemma StepSingle(c: Config, s: State, e: Event)
    requires Single(s) && InSight(s) && Enabled(c, s, e)
    ensures Single(Next(c, s, e)) <==> (e.Restarted? ==> s.spawned == {})
    ensures Single(Next(c, s, e)) ==> InSight(Next(c, s, e))
  {
    var s' := Next(c, s, e);
    match e
    case Restarted =>
      if p :| p in s.spawned { assert Alive(s, p) && Alive(s', p) && Alive(s', s.nextLoop); }
      if !s.served { assert forall l | Alive(s', l) :: Alive(s, l); }
    case LoopRuns(p) =>
      assert Alive(s, p);
      assert forall l | Alive(s', l) :: Alive(s, l);
      assert forall l | l in s'.sleeping :: Alive(s', l);
    case LoopWakes(p, _) =>
      assert forall l | Alive(s', l) :: Alive(s, l);
    case _ =>
      assert forall l :: Alive(s', l) <==> Alive(s, l);
  }

  lemma {:induction false} SingleIffUnhurried(c: Config, s: State, es: seq<Event>)
    requires Single(s) && InSight(s) && Legal(c, s, es)
    ensures AlwaysSingle(c, s, es) <==> Unhurried(c, s, es)
    decreases |es|
  {
    if es != [] {
      StepSingle(c, s, es[0]);
      if Single(Next(c, s, es[0])) { SingleIffUnhurried(c, Next(c, s, es[0]), es[1..]); }
    }
  }

  /** There is never more than one loop, over any number of reconnections, exactly as
      long as each restart finds the last one's loop begun. */
  lemma OneLoopIff(c: Config, start: int, es: seq<Event>)
    requires Legal(c, Begin(start), es)
    ensures AlwaysSingle(c, Begin(start), es) <==> Unhurried(c, Begin(start), es)
  {
    SingleIffUnhurried(c, Begin(start), es);
  }

  /** A caller that restarts at once after serving has two loops from then on, of
      which later restarts cancel one. The supervisor is not such a caller: between
      two of its restarts a connection is made, and the loop gets to run. */
  lemma HurriedRestartLeavesTwo(c: Config, start: int)
    ensures var es := [Restarted, LoopRuns(0), LoopRuns(1)];
            && Legal(c, Begin(start), es)
            && Exec(c, Begin(start), es).sleeping.Keys == {0, 1} && Exec(c, Begin(start), es).scope == {1}
  {
    var s1 := Next(c, Begin(start), Restarted);
    var s2 := Next(c, s1, LoopRuns(0));
    Prepend(c, s2, LoopRuns(1), []);
    Prepend(c, s1, LoopRuns(0), [LoopRuns(1)]);
    Prepend(c, Begin(start), Restarted, [LoopRuns(0), LoopRuns(1)]);
  }

  // ---------------------------------------------------------------------
  // The monitor as an object
  // ---------------------------------------------------------------------

  class HeartbeatManager {
    const config: Config
    var clock: int
    var lastReceived: int
    var taskGroup: bool                // serve() has one, and its handlers are registered
    var taskScope: set<LoopId>
    var asleep: map<LoopId, int>
    var spawned: set<LoopId>
    var nextLoop: LoopId
    ghost var started: int
    ghost var watched: bool
    ghost var reportedBefore: nat
    ghost var marks: seq<int>
    ghost var reports: seq<Report>

    ghost function Model(): State
      reads this
    {
      State(clock, lastReceived, taskGroup, started, watched, reportedBefore, taskScope, asleep, spawned, nextLoop, marks, reports)
    }

    constructor Serve(c: Config, now: int)
      ensures config == c && Model() == Begin(now)
    {
      config := c;
      clock, lastReceived := now, now;
      taskGroup, taskScope, asleep, spawned, nextLoop := true, {}, map[], {0}, 1;
      started, watched, reportedBefore, marks, reports := now, true, 0, [now], [];
    }

    method Restart()
      modifies this
      ensures Model() == Next(config, old(Model()), Event.Restarted)
    {
      asleep := asleep - taskScope;
      lastReceived := clock;
      if taskGroup { spawned, nextLoop := spawned + {nextLoop}, nextLoop + 1; }
      started, watched, reportedBefore, marks := clock, taskGroup, |reports|, marks + [clock];
    }

    /** The `finally` of serve, which is reached when its last loop has returned. */
    method ServeExits()
      requires Enabled(config, Model(), Event.MonitorEnds)
      modifies this
      ensures Model() == Next(config, old(Model()), Event.MonitorEnds)
    {
      taskGroup := false;
      taskScope := {};
    }

    method RecordActivity()
      requires Enabled(config, Model(), Event.Heard)
      modifies this
      ensures Model() == Next(config, old(Model()), Event.Heard)
    {
      lastReceived := clock;
      marks := marks + [clock];
    }

    /** A loop's first step, up to where it sleeps. */
    method HeartbeatLoop(l: LoopId)
      requires Enabled(config, Model(), Event.LoopRuns(l))
      modifies this
      ensures Model() == Next(config, old(Model()), Event.LoopRuns(l))
    {
      spawned := spawned - {l};
      taskScope := {l};
      asleep := asleep[l := clock + config.interval];
    }

    /** One pass of a loop, from where its sleep ends: whether it told the
        protocol that the link is gone, and with it came to an end. */
    method Wake(l: LoopId, sent: bool) returns (disconnected: bool)
      requires Enabled(config, Model(), Event.LoopWakes(l, sent))
      modifies this
      ensures Model() == Next(config, old(Model()), Event.LoopWakes(l, sent))
      ensures disconnected <==> reports != old(reports)
      ensures disconnected <==> l !in asleep
    {
      var elapsed := clock - lastReceived;
      if 0 < config.timeout < elapsed {
        asleep := asleep - {l};
        reports := reports + [Report(clock, true, elapsed, |marks|)];
        return true;
      }
      if !sent {
        asleep := asleep - {l};
        reports := reports + [Report(clock, false, elapsed, |marks|)];
        return true;
      }
      asleep := asleep[l := clock + config.interval];
      disconnected := false;
    }
  }
}
