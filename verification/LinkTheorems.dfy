/** What the reconnection machinery promises over whole runs: every statement is
    about the history of an arbitrary run, under any schedule and any outcomes. */
module LinkTheorems {
  import opened Link
  import opened LinkProofs

  ghost function After(c: Config, es: seq<Event>): State
    requires Legal(c, START, es)
  {
    Exec(c, START, es)
  }

  lemma ReachedInv(c: Config, l: nat, es: seq<Event>)
    requires Legal(c, START, es)
    ensures Inv(c, l, After(c, es))
  {
    StartInv(c, l);
    RunInv(c, l, START, es);
  }

  // ---------------------------------------------------------------------
  // Single flight
  // ---------------------------------------------------------------------

  lemma {:induction false} DiedMeans(c: Config, l: nat, log: seq<Entry>)
    ensures Read(c, l, log).died <==> DetectorDied in log
  {
    if log != [] {
      DiedMeans(c, l, log[..|log| - 1]);
      assert log == log[..|log| - 1] + [log[|log| - 1]];
    }
  }

  /** At most one task is ever inside the reconnection code; the flag is up
      exactly while one is, as long as no detector died on its way in. */
  lemma SingleReconnection(c: Config, es: seq<Event>)
    requires Legal(c, START, es)
    ensures var s := After(c, es);
            && (forall t, u | t in s.tasks && u in s.tasks :: t == u)
            && (DetectorDied !in s.log ==> (s.reconnecting <==> exists t :: t in s.tasks))
            && (DetectorDied in s.log ==> s.reconnecting && forall t :: t !in s.tasks)
  {
    var s := After(c, es);
    ReachedInv(c, 0, es);
    var f :| Fits(c, 0, s, Read(c, 0, s.log), f);
    DiedMeans(c, 0, s.log);
    if f.InFlight? { assert f.task in s.tasks; }
  }

  // ---------------------------------------------------------------------
  // No report is lost
  // ---------------------------------------------------------------------

  /** While the protocol is running every report is accepted, a reconnection under
      way or not; once it has stopped none is, and none changes anything. */
  lemma ReportIsAcceptedIff(c: Config, es: seq<Event>, t: TaskId)
    requires Legal(c, START, es) && t !in After(c, es).tasks
    ensures var s, s' := After(c, es), Next(c, After(c, es), Report(t));
            && (s.running ==> s'.log == s.log + [Reported] && s'.reconnecting && (s.reconnecting ==> s'.redo))
            && (!s.running ==> s' == s)
  {
    ReachedInv(c, 0, es);
  }

  // ---------------------------------------------------------------------
  // What is lost is served
  // ---------------------------------------------------------------------

  /** A pass began after position `i` of the log. */
  ghost predicate PassAfter(log: seq<Entry>, i: nat) {
    exists j :: i < j < |log| && log[j] == PassBegun
  }

  /** A pass began after position `i`, and a connection was made after that. */
  ghost predicate ServedAfter(log: seq<Entry>, i: nat) {
    exists j, k :: i < j < k < |log| && log[j] == PassBegun && log[k] == Connected
  }

  ghost predicate SameServe(log: seq<Entry>, i: nat) {
    forall j | i < j < |log| :: log[j] != Served
  }

  lemma {:induction false} UnservedMeans(c: Config, l: nat, log: seq<Entry>, i: nat)
    requires i < |log| && log[i] == Reported && SameServe(log, i)
    ensures Read(c, l, log).unserved || PassAfter(log, i)
    decreases |log|
  {
    var before := log[..|log| - 1];
    if i < |before| {
      assert forall j | i < j < |before| :: log[j] == before[j];
      UnservedMeans(c, l, before, i);
      if PassAfter(before, i) {
        var j :| i < j < |before| && before[j] == PassBegun;
        assert log[j] == PassBegun;
      } else if log[|log| - 1] == PassBegun {
        assert PassAfter(log, i);
      }
    }
  }

  lemma {:induction false} LinkedMeans(c: Config, l: nat, log: seq<Entry>, j: nat)
    requires j < |log| && log[j] == PassBegun && SameServe(log, j)
    requires Read(c, l, log).linked
    ensures exists k :: j < k < |log| && log[k] == Connected
    decreases |log|
  {
    var before := log[..|log| - 1];
    if log[|log| - 1] == Connected {
      assert j < |log| - 1;
    } else {
      assert j < |before|;
      assert forall k | j < k < |before| :: log[k] == before[k];
      LinkedMeans(c, l, before, j);
      var k :| j < k < |before| && before[k] == Connected;
      assert log[k] == Connected;
    }
  }

  /** Served already by a pass that began after the report and has connected, or
      bound to be by the reconnection under way. */
  ghost predicate ServedOrBoundToBe(s: State, i: nat) {
    if s.reconnecting then exists t | t in s.tasks :: PassAfter(s.log, i) || s.redo || BeforePass(s.tasks[t])
    else s.connected && ServedAfter(s.log, i)
  }

  /** Every drop report accepted while running is served by a pass that begins
      after it and connects, unless the reconnection that will do so is still
      under way: then either that pass has begun already, or it is bound to,
      because the request to go round again stands or the task has yet to reach
      the top of its loop. Holds until cancellation is requested, and as long as
      no detector died on its way in. */
  lemma NoReportIsLost(c: Config, es: seq<Event>, i: nat)
    requires Legal(c, START, es)
    requires var s := After(c, es);
             && s.running && !s.stopping && DetectorDied !in s.log
             && i < |s.log| && s.log[i] == Reported && SameServe(s.log, i)
    ensures ServedOrBoundToBe(After(c, es), i)
  {
    var s := After(c, es);
    ReachedInv(c, 0, es);
    var r := Read(c, 0, s.log);
    var f :| Fits(c, 0, s, r, f);
    DiedMeans(c, 0, s.log);
    UnservedMeans(c, 0, s.log, i);
    if s.reconnecting {
      assert f.task in s.tasks;
    } else {
      var j :| i < j < |s.log| && s.log[j] == PassBegun;
      LinkedMeans(c, 0, s.log, j);
    }
  }

  /** In a protocol that is running, with no cancellation requested, the reports of
      this serve are served or bound to be exactly if no detector ever died. */
  lemma ReportsAreServedIff(c: Config, es: seq<Event>, i: nat)
    requires Legal(c, START, es)
    requires var s := After(c, es);
             s.running && !s.stopping && i < |s.log| && s.log[i] == Reported && SameServe(s.log, i)
    ensures ServedOrBoundToBe(After(c, es), i) <==> DetectorDied !in After(c, es).log
  {
    SingleReconnection(c, es);
    if DetectorDied !in After(c, es).log { NoReportIsLost(c, es, i); }
  }

  /** The other half. Once a detector has died on its way in, the flag it raised
      is never lowered: no pass begins again, whatever is reported, even if the
      protocol is served anew. */
  lemma {:induction false} DeadDetectorStrands(c: Config, s: State, es: seq<Event>)
    requires Legal(c, s, es) && s.reconnecting && s.tasks == map[]
    ensures var s' := Exec(c, s, es);
            && s'.reconnecting && s'.tasks == map[]
            && |s.log| <= |s'.log| && s'.log[..|s.log|] == s.log
            && forall j | |s.log| <= j < |s'.log| :: s'.log[j] in {Reported, Interrupted, Served}
    decreases es
  {
    if es != [] {
      var s1 := Next(c, s, es[0]);
      DeadDetectorStays(c, s, es[0]);
      DeadDetectorStrands(c, s1, es[1..]);
      var s' := Exec(c, s1, es[1..]);
      assert s'.log[..|s.log|] == s'.log[..|s1.log|][..|s.log|];
      forall j | |s.log| <= j < |s'.log| ensures s'.log[j] in {Reported, Interrupted, Served} {
        if j < |s1.log| { assert s'.log[j] == s'.log[..|s1.log|][j]; }
      }
    }
  }

  lemma DeadDetectorStays(c: Config, s: State, e: Event)
    requires Enabled(c, s, e) && s.reconnecting && s.tasks == map[]
    ensures var s' := Next(c, s, e);
            && s'.reconnecting && s'.tasks == map[]
            && |s.log| <= |s'.log| <= |s.log| + 1 && s'.log[..|s.log|] == s.log
            && (|s.log| < |s'.log| ==> s'.log[|s.log|] in {Reported, Interrupted, Served})
  {
  }

  /** And it does happen: a detector cancelled while the loss is being reported,
      then the protocol served again and the link dropped. The report is
      accepted and nothing will ever serve it. */
  lemma ServedAgainAfterDeadDetector(c: Config)
    ensures var es := [Report(0), Stop, Cancel(0), Finish, Serve, Report(1)];
            && Legal(c, START, es)
            && var s := After(c, es);
               && s.running && !s.stopping && s.reconnecting && s.tasks == map[]
               && s.log == [Served, Reported, Interrupted, DetectorDied, Served, Reported]
  {
  }

  /** Nor does it take a cancellation. While the heartbeat's task is reporting a
      loss, the reader sees it too, adds its report and exits; with no task of its
      own left serve() returns, and the detector has nothing to spawn the
      reconnection on. */
  lemma ServeReturnsUnderDetector(c: Config)
    requires c.listeners == 1
    ensures var es := [Report(0), Notify(0, Returned), Report(1), Finish, Detected(0, Returned, 2)];
            && Legal(c, START, es)
            && After(c, es).log == [Served, Reported, Lost(0), Reported, DetectorDied]
            && After(c, es).reconnecting && !After(c, es).running && After(c, es).tasks == map[]
  {
    var s1 := Next(c, START, Report(0));
    var s2 := Next(c, s1, Notify(0, Returned));
    var s3 := Next(c, s2, Report(1));
    var s4 := Next(c, s3, Finish);
    var s5 := Next(c, s4, Detected(0, Returned, 2));
    assert s5.tasks == map[];
    assert Legal(c, s5, []);
    assert [Detected(0, Returned, 2)][1..] == [];
    assert [Finish, Detected(0, Returned, 2)][1..] == [Detected(0, Returned, 2)];
    assert [Report(1), Finish, Detected(0, Returned, 2)][1..] == [Finish, Detected(0, Returned, 2)];
    var rest := [Report(1), Finish, Detected(0, Returned, 2)];
    assert [Notify(0, Returned), Report(1), Finish, Detected(0, Returned, 2)][1..] == rest;
    assert Legal(c, s3, [Finish, Detected(0, Returned, 2)]) && Exec(c, s3, [Finish, Detected(0, Returned, 2)]) == s5;
    assert Legal(c, s2, rest) && Exec(c, s2, rest) == s5;
    var es := [Report(0), Notify(0, Returned), Report(1), Finish, Detected(0, Returned, 2)];
    assert es[1..] == [Notify(0, Returned), Report(1), Finish, Detected(0, Returned, 2)];
    assert Legal(c, s1, es[1..]) && Exec(c, s1, es[1..]) == s5;
  }

  // ---------------------------------------------------------------------
  // Listeners hear of losses and recoveries in turn
  // ---------------------------------------------------------------------

  /** What `listener` is told in a stretch of the log. */
  ghost function Notices(log: seq<Entry>, listener: nat): seq<Entry> {
    if log == [] then []
    else
      var before := Notices(log[..|log| - 1], listener);
      var e := log[|log| - 1];
      if e == Lost(listener) || e == Restored(listener) then before + [e] else before
  }

  ghost predicate TakesTurns(notices: seq<Entry>, listener: nat) {
    forall k | 0 <= k < |notices| :: notices[k] == if k % 2 == 0 then Lost(listener) else Restored(listener)
  }

  lemma {:induction false} NeverMisled(c: Config, l: nat, log: seq<Entry>, n: nat)
    requires n <= |log| && Read(c, l, log).ear != Misled
    ensures Read(c, l, log[..n]).ear != Misled
    decreases |log|
  {
    if n < |log| {
      var before := log[..|log| - 1];
      NeverMisled(c, l, before, n);
      assert before[..n] == log[..n];
    } else {
      assert log[..n] == log;
    }
  }

  lemma EarOn(c: Config, l: nat, log: seq<Entry>, n: nat)
    requires 0 < n <= |log| && Read(c, l, log).ear != Misled
    ensures Hear(Read(c, l, log[..n - 1]).ear, l, log[n - 1]) == Read(c, l, log[..n]).ear != Misled
  {
    NeverMisled(c, l, log, n);
    ReadOn(c, l, log[..n - 1], log[n - 1]);
    assert log[..n] == log[..n - 1] + [log[n - 1]];
  }

  ghost predicate Heard(notices: seq<Entry>, l: nat, ear: Ear) {
    TakesTurns(notices, l) && ear == if |notices| % 2 == 0 then Up else Down
  }

  lemma OneMore(notices: seq<Entry>, l: nat, ear: Ear, e: Entry)
    requires Heard(notices, l, ear) && Hear(ear, l, e) != Misled
    requires e != Served && e != Interrupted
    ensures Heard(if e == Lost(l) || e == Restored(l) then notices + [e] else notices, l, Hear(ear, l, e))
  {
  }

  lemma NoticesOn(log: seq<Entry>, l: nat, a: nat, b: nat)
    requires a < b <= |log|
    ensures var before := Notices(log[a..b - 1], l);
            Notices(log[a..b], l) == if log[b - 1] == Lost(l) || log[b - 1] == Restored(l) then before + [log[b - 1]] else before
  {
    assert log[a..b][..b - a - 1] == log[a..b - 1];
  }

  ghost predicate HeardFrom(c: Config, l: nat, log: seq<Entry>, a: nat, b: nat)
    requires a <= b <= |log|
  {
    Heard(Notices(log[a..b], l), l, Read(c, l, log[..b]).ear)
  }

  lemma ServedAnew(c: Config, l: nat, log: seq<Entry>, a: nat)
    requires a < |log| && log[a] == Served && Read(c, l, log).ear != Misled
    ensures HeardFrom(c, l, log, a, a + 1)
  {
    EarOn(c, l, log, a + 1);
    NoticesOn(log, l, a, a + 1);
    assert log[a..a] == [];
  }

  lemma {:induction false} TurnsAfter(c: Config, l: nat, log: seq<Entry>, a: nat, b: nat)
    requires a < b <= |log| && log[a] == Served
    requires forall j | a < j < b :: log[j] != Served && log[j] != Interrupted
    requires Read(c, l, log).ear != Misled
    ensures HeardFrom(c, l, log, a, b)
    decreases b
  {
    if b == a + 1 {
      ServedAnew(c, l, log, a);
    } else {
      TurnsAfter(c, l, log, a, b - 1);
      var ear := Read(c, l, log[..b - 1]).ear;
      var e := log[b - 1];
      assert Hear(ear, l, e) == Read(c, l, log[..b]).ear != Misled by { EarOn(c, l, log, b); }
      OneMore(Notices(log[a..b - 1], l), l, ear, e);
      NoticesOn(log, l, a, b);
    }
  }

  /** From the moment the protocol is served until cancellation is requested,
      each listener hears of a loss first and then of recoveries and losses
      strictly in turn, through every redo and whatever the listeners raise. */
  lemma NoticesAlternate(c: Config, es: seq<Event>, listener: nat, a: nat, b: nat)
    requires Legal(c, START, es)
    requires var log := After(c, es).log;
             && a < b <= |log| && log[a] == Served
             && forall j | a < j < b :: log[j] != Served && log[j] != Interrupted
    ensures TakesTurns(Notices(After(c, es).log[a..b], listener), listener)
  {
    ReachedInv(c, listener, es);
    TurnsAfter(c, listener, After(c, es).log, a, b);
  }

  // ---------------------------------------------------------------------
  // Abandonment
  // ---------------------------------------------------------------------

  /** Failed connection attempts since the latest pass began. */
  ghost function FailuresInPass(log: seq<Entry>): nat {
    if log == [] then 0
    else
      var e := log[|log| - 1];
      if e == PassBegun then 0
      else FailuresInPass(log[..|log| - 1]) + (if e == ConnectFailed then 1 else 0)
  }

  lemma {:induction false} FailuresMeans(c: Config, l: nat, log: seq<Entry>)
    ensures Read(c, l, log).failures == FailuresInPass(log)
    ensures Read(c, l, log).exhausted <==>
              c.budget.AtMost? && log != [] && log[|log| - 1] == ConnectFailed && FailuresInPass(log) >= c.budget.attempts
  {
    if log != [] {
      FailuresMeans(c, l, log[..|log| - 1]);
    }
  }

  lemma {:induction false} ExactMeans(c: Config, l: nat, log: seq<Entry>, i: nat)
    requires Read(c, l, log).exact && i < |log|
    ensures log[i].GaveUp? ==> log[i] == GaveUp(true, c.budget != AtMost(0))
    ensures c.budget != AtMost(0) ==> (log[i].GaveUp? <==> Read(c, l, log[..i]).exhausted)
    ensures c.budget == AtMost(0) ==> log[i] != Connected && log[i] != ConnectFailed
    ensures c.budget.AtMost? && log[i] == ConnectFailed ==>
              Read(c, l, log[..i]).failures < c.budget.attempts
    decreases |log|
  {
    var before := log[..|log| - 1];
    if i < |before| {
      ExactMeans(c, l, before, i);
      assert before[..i] == log[..i];
    } else {
      assert log[..i] == before;
    }
  }

  /** With a budget of n > 0, the client gives up exactly when a connection
      attempt has just failed for the nth time in the current pass, and then it
      raises. It never gives up for a reason it did not expect. */
  lemma AbandonsExactly(c: Config, es: seq<Event>, i: nat)
    requires Legal(c, START, es) && i < |After(c, es).log|
    requires c.budget != AtMost(0)
    ensures var log := After(c, es).log;
            && (log[i].GaveUp? <==>
                  && c.budget.AtMost?
                  && i > 0 && log[i - 1] == ConnectFailed && FailuresInPass(log[..i]) == c.budget.attempts)
            && (log[i].GaveUp? ==> log[i] == GaveUp(true, true))
  {
    var log := After(c, es).log;
    ReachedInv(c, 0, es);
    ExactMeans(c, 0, log, i);
    FailuresMeans(c, 0, log[..i]);
    if i > 0 && log[i - 1] == ConnectFailed {
      ExactMeans(c, 0, log, i - 1);
      FailuresMeans(c, 0, log[..i - 1]);
      assert log[..i][..i - 1] == log[..i - 1];
    }
  }

  /** The whole log never ends on the failure that used up the budget: giving up
      is part of the same step. */
  lemma NeverLingers(c: Config, es: seq<Event>)
    requires Legal(c, START, es) && c.budget.AtMost?
    ensures var log := After(c, es).log;
            log != [] && log[|log| - 1] == ConnectFailed ==> FailuresInPass(log) < c.budget.attempts
  {
    ReachedInv(c, 0, es);
    FailuresMeans(c, 0, After(c, es).log);
  }

  /** With reconnection disabled no connection is ever attempted, and giving up
      never raises. */
  lemma DisabledNeverConnects(c: Config, es: seq<Event>, i: nat)
    requires Legal(c, START, es) && i < |After(c, es).log|
    requires c.budget == AtMost(0)
    ensures var e := After(c, es).log[i];
            e != Connected && e != ConnectFailed && (e.GaveUp? ==> e == GaveUp(true, false))
  {
    ReachedInv(c, 0, es);
    ExactMeans(c, 0, After(c, es).log, i);
  }

  // ---------------------------------------------------------------------
  // Reconnecting comes to an end
  // ---------------------------------------------------------------------

  /** Steps the task in flight still has to take, failed attempts aside. */
  function Work(c: Config, p: Phase): nat {
    match p
    case Notifying(k) => (if k <= c.listeners then c.listeners - k else 0) + c.listeners + 5
    case Scheduled => c.listeners + 4
    case Closing => c.listeners + 3
    case Connecting(_) => c.listeners + 2
    case Restoring(k) => (if k <= c.listeners then c.listeners - k else 0) + 1
    case Renotifying(k) => (if k <= c.listeners then c.listeners - k else 0) + c.listeners + 4
  }

  function WorkLeft(c: Config, redo: bool, f: Flight): nat {
    match f
    case Grounded => 0
    case InFlight(_, p) => Work(c, p) + if redo && !BeforePass(p) then 2 * c.listeners + 4 else 0
  }

  /** A step of the reconnection code other than an attempt that failed. */
  predicate Progress(e: Event) {
    match e
    case Notify(_, _) => true
    case Detected(_, _, _) => true
    case Begin(_) => true
    case Closed(_, _) => true
    case Attempted(_, o) => o.Returned?
    case Notified(_, _) => true
    case _ => false
  }

  ghost function Count(es: seq<Event>, p: Event -> bool): nat {
    if es == [] then 0 else (if p(es[0]) then 1 else 0) + Count(es[1..], p)
  }

  /** Where the task in flight stands after a step of its own. */
  function Moved(c: Config, s: State, p: Phase, e: Event): Flight {
    match e
    case Notify(t, _) =>
      (match p
       case Notifying(k) => InFlight(t, Notifying(k + 1))
       case Restoring(k) => InFlight(t, Restoring(k + 1))
       case Renotifying(k) => InFlight(t, Renotifying(k + 1))
       case _ => Grounded)
    case Detected(_, _, child) => if s.serving then InFlight(child, Scheduled) else Grounded
    case Begin(t) => InFlight(t, Closing)
    case Closed(t, _) => if c.budget == AtMost(0) then Grounded else InFlight(t, Connecting(0))
    case Attempted(t, o) =>
      if o.Returned? then InFlight(t, Restoring(0))
      else if p.Connecting? && !(c.budget.AtMost? && p.failures + 1 >= c.budget.attempts)
        then InFlight(t, Connecting(p.failures + 1))
      else Grounded
    case Notified(t, _) =>
      if p.Renotifying? then InFlight(t, Closing)
      else if s.redo then InFlight(t, Renotifying(0))
      else Grounded
    case _ => Grounded
  }

  predicate Own(e: Event) { Progress(e) || e.Attempted? }

  lemma MovedTo(c: Config, s: State, t: TaskId, p: Phase, e: Event)
    requires s.tasks == map[t := p] && Enabled(c, s, e) && Own(e)
    ensures Carries(Next(c, s, e).tasks, Moved(c, s, p, e))
  {
    match e
    case Notify(_, o) => Called(c, s, t, p, o);
    case Detected(_, _, child) => assert (s.tasks - {t})[child := Scheduled] == map[child := Scheduled];
    case Attempted(_, _) => AttemptedTo(c, s, t, p, e);
    case Notified(_, _) => NotifiedTo(c, s, t, p, e);
    case _ =>
  }

  lemma AttemptedTo(c: Config, s: State, t: TaskId, p: Phase, e: Event)
    requires s.tasks == map[t := p] && Enabled(c, s, e) && e.Attempted?
    ensures Carries(Next(c, s, e).tasks, Moved(c, s, p, e))
  {
  }

  lemma NotifiedTo(c: Config, s: State, t: TaskId, p: Phase, e: Event)
    requires s.tasks == map[t := p] && Enabled(c, s, e) && e.Notified?
    ensures Carries(Next(c, s, e).tasks, Moved(c, s, p, e))
  {
  }

  lemma RedoAfter(c: Config, s: State, t: TaskId, p: Phase, e: Event)
    requires s.tasks == map[t := p] && Enabled(c, s, e) && Own(e)
    ensures Next(c, s, e).redo ==> s.redo && !e.Begin? && !(e.Notified? && p.Renotifying?)
  {
    if e.Notify? { Called(c, s, t, p, e.previous); }
  }

  lemma MovedWork(c: Config, s: State, t: TaskId, p: Phase, e: Event, redo: bool)
    requires s.tasks == map[t := p] && Enabled(c, s, e) && Own(e)
    requires redo ==> s.redo && !e.Begin? && !(e.Notified? && p.Renotifying?)
    ensures WorkLeft(c, redo, Moved(c, s, p, e)) + (if Progress(e) then 1 else 0)
         <= WorkLeft(c, s.redo, InFlight(t, p))
  {
  }

  /** Each step of progress uses up work; only a report adds any. */
  lemma StepWork(c: Config, s: State, e: Event, f: Flight) returns (f': Flight)
    requires Enabled(c, s, e) && Carries(s.tasks, f)
    requires f.InFlight? ==> s.reconnecting
    ensures Carries(Next(c, s, e).tasks, f')
    ensures WorkLeft(c, Next(c, s, e).redo, f') + (if Progress(e) then 1 else 0)
         <= WorkLeft(c, s.redo, f) + (if e.Report? then 2 * c.listeners + 5 else 0)
  {
    if Own(e) {
      assert f.InFlight?;
      RedoAfter(c, s, f.task, f.phase, e);
      MovedTo(c, s, f.task, f.phase, e);
      MovedWork(c, s, f.task, f.phase, e, Next(c, s, e).redo);
      f' := Moved(c, s, f.phase, e);
    } else {
      f' := if e.Report? && s.running && !s.reconnecting && s.serving then InFlight(e.task, Notifying(0))
            else if e.Cancel? then Grounded else f;
    }
  }

  lemma FlightIsUnique(tasks: map<TaskId, Phase>, f: Flight, f': Flight)
    requires Carries(tasks, f) && Carries(tasks, f')
    ensures f == f'
  {
    assert f.InFlight? ==> f.task in tasks && tasks[f.task] == f.phase;
    assert f'.InFlight? ==> f'.task in tasks && tasks[f'.task] == f'.phase;
  }

  lemma FlagIsUp(c: Config, s: State, f: Flight)
    requires Inv(c, 0, s) && Carries(s.tasks, f)
    ensures f.InFlight? ==> s.reconnecting
  {
    var g :| Fits(c, 0, s, Read(c, 0, s.log), g);
    FlightIsUnique(s.tasks, f, g);
  }

  predicate IsReport(e: Event) { e.Report? }

  lemma {:induction false} RunWork(c: Config, s: State, es: seq<Event>, f: Flight)
    requires Legal(c, s, es) && Inv(c, 0, s) && Carries(s.tasks, f)
    ensures Count(es, Progress) <= WorkLeft(c, s.redo, f) + (2 * c.listeners + 5) * Count(es, IsReport)
    decreases es
  {
    if es != [] {
      FlagIsUp(c, s, f);
      var f' := StepWork(c, s, es[0], f);
      StepInv(c, 0, s, es[0]);
      RunWork(c, Next(c, s, es[0]), es[1..], f');
      var price := 2 * c.listeners + 5;
      assert price * (1 + Count(es[1..], IsReport)) == price + price * Count(es[1..], IsReport);
    }
  }

  /** In every run, the reconnection code takes at most 2n + 5 steps for each
      report it is given, for n listeners, besides attempts that fail: an outage
      is paid for in failed attempts only, and no schedule makes it go round on
      its own. */
  lemma ReconnectingComesToAnEnd(c: Config, es: seq<Event>)
    requires Legal(c, START, es)
    ensures Count(es, Progress) <= (2 * c.listeners + 5) * Count(es, IsReport)
  {
    StartInv(c, 0);
    RunWork(c, START, es, Grounded);
  }

  /** And it never gets stuck: a task inside the reconnection code always has a
      step to take. */
  lemma AlwaysAWayOn(c: Config, es: seq<Event>, t: TaskId)
    requires Legal(c, START, es) && t in After(c, es).tasks
    ensures exists e :: Own(e) && e.task == t && Enabled(c, After(c, es), e)
  {
    var s := After(c, es);
    ReachedInv(c, 0, es);
    var f :| Fits(c, 0, s, Read(c, 0, s.log), f);
    var e := match f.phase
      case Notifying(k) => if k < c.listeners then Notify(t, Returned) else Detected(t, Returned, t + 1)
      case Scheduled => Begin(t)
      case Closing => Closed(t, Returned)
      case Connecting(_) => Attempted(t, Returned)
      case Restoring(k) => if k < c.listeners then Notify(t, Returned) else Notified(t, Returned)
      case Renotifying(k) => if k < c.listeners then Notify(t, Returned) else Notified(t, Returned);
    assert Own(e) && e.task == t && Enabled(c, s, e);
  }
}
