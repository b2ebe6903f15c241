/** How long the recovery waits: by how often it has failed, counted on the run
    itself, and not on what the store or the loop has kept of it. */
module Waits {
  import opened Sessions
  import opened Backoff
  import opened Replies
  import opened Recovery
  import opened RecoveryProofs

  /** The failures of a stretch, and when the last of them came. */
  datatype Record = Record(failures: nat, failedAt: real)

  const CLEAN := Record(0, 0.0)

  /** The wait after n failures: the first wait doubled n - 1 times, capped. */
  function Wait(p: Policy, n: nat): real
    requires n > 0
  {
    var doubled := p.minWait * (Pow2(n - 1) as real);
    if doubled > p.maxWait then p.maxWait else doubled
  }

  lemma WaitIsDelay(p: Policy, n: nat)
    requires n > 0
    ensures Wait(p, n) == Delay(p, n)
  {
  }

  // ---------------------------------------------------------------------
  // Accounts
  // ---------------------------------------------------------------------

  /** An attempt on the account fails: refused, or accepted and then not settled. */
  predicate Fails(s: State, e: Event, a: AccountId)
    requires Enabled(s, e)
  {
    match e
    case Attempted(expired, reply) =>
      (expired || (reply != Answered && reply != ApiError(AlreadyLoggedIn))) && s.loop.queue[0].account == a
    case Settled(ok) => !ok && s.loop.Settling? && s.loop.queue[0].account == a
    case _ => false
  }

  /** One step further: a stretch begins when the account comes to await recovery. */
  ghost function Follow(p: Policy, s: State, e: Event, a: AccountId, r: Record): Record
    requires Enabled(s, e)
  {
    if !IsAwaiting(s.store, a) || !IsAwaiting(Next(p, s, e).store, a) then CLEAN
    else if Fails(s, e, a) then Record(r.failures + 1, s.now)
    else r
  }

  ghost function History(p: Policy, s: State, es: seq<Event>, a: AccountId, r: Record): Record
    requires Legal(p, s, es)
    decreases |es|
  {
    if es == [] then r else History(p, Next(p, s, es[0]), es[1..], a, Follow(p, s, es[0], a, r))
  }

  /** The attempt being answered was taken up before the account was last flagged,
      and under another count. */
  predicate Outdated(s: State, e: Event, a: AccountId)
    requires Enabled(s, e)
  {
    Fails(s, e, a) && IsAwaiting(s.store, a) && s.loop.queue[0].attempts != s.store.accounts[a].session.attempts
  }

  ghost predicate NeverOutdated(p: Policy, s: State, es: seq<Event>, a: AccountId)
    requires Legal(p, s, es)
    decreases |es|
  {
    es != [] ==> !Outdated(s, es[0], a) && NeverOutdated(p, Next(p, s, es[0]), es[1..], a)
  }

  /** The wait an account is in is the one its count calls for, from its last failure. */
  ghost predicate Waits(p: Policy, s: State, a: AccountId, r: Record) {
    IsAwaiting(s.store, a) ==>
      var session := s.store.accounts[a].session;
      if session.attempts == 0 then session.nextAttemptAt == 0.0 && r == CLEAN
      else r.failedAt <= s.now && session.nextAttemptAt == r.failedAt + Wait(p, session.attempts)
  }

  ghost predicate Counts(s: State, a: AccountId, r: Record) {
    IsAwaiting(s.store, a) ==> s.store.accounts[a].session.attempts == r.failures
  }

  /** A step that is no failure of this account keeps the session of an account
      that awaits, or flags it anew, or ends its wait. */
  ghost predicate Leaves(s: Store, s': Store, a: AccountId) {
    IsAwaiting(s', a) ==>
      s'.accounts[a].session == if IsAwaiting(s, a) then s.accounts[a].session else JUST_DROPPED
  }

  lemma StepLeaves(p: Policy, s: State, e: Event, a: AccountId)
    requires Enabled(s, e) && !Fails(s, e, a)
    ensures Leaves(s.store, Next(p, s, e).store, a)
  {
    match e
    case AppRestored(ok) => if !ok { FlagAllIs(s.store, s.store.order); }
    case _ =>
  }

  /** A failure of an account that awaits adds one to the count that its attempt
      was taken up with, and puts off the next one accordingly. */
  lemma FailureDefers(p: Policy, s: State, e: Event, a: AccountId)
    requires Enabled(s, e) && Fails(s, e, a)
    ensures var s' := Next(p, s, e).store;
            && (IsAwaiting(s', a) <==> IsAwaiting(s.store, a))
            && (IsAwaiting(s', a) ==>
                  var n := s.loop.queue[0].attempts + 1;
                  s'.accounts[a].session == AwaitingRecovery(n, s.now + Wait(p, n)))
  {
    WaitIsDelay(p, s.loop.queue[0].attempts + 1);
  }

  lemma StepWaits(p: Policy, s: State, e: Event, a: AccountId, r: Record)
    requires Enabled(s, e) && Waits(p, s, a, r)
    ensures Waits(p, Next(p, s, e), a, Follow(p, s, e, a, r))
    ensures Counts(s, a, r) && IsAwaiting(Next(p, s, e).store, a) ==>
              (Counts(Next(p, s, e), a, Follow(p, s, e, a, r)) <==> !Outdated(s, e, a))
    ensures !IsAwaiting(Next(p, s, e).store, a) ==> !Outdated(s, e, a)
  {
    if Fails(s, e, a) { FailureDefers(p, s, e, a); } else { StepLeaves(p, s, e, a); }
  }

  lemma {:induction false} RunWaits(p: Policy, s: State, es: seq<Event>, a: AccountId, r: Record)
    requires Legal(p, s, es) && Waits(p, s, a, r)
    ensures Waits(p, Exec(p, s, es), a, History(p, s, es, a, r))
    decreases |es|
  {
    if es != [] {
      StepWaits(p, s, es[0], a, r);
      RunWaits(p, Next(p, s, es[0]), es[1..], a, Follow(p, s, es[0], a, r));
    }
  }

  ghost predicate CountsThroughout(p: Policy, s: State, es: seq<Event>, a: AccountId, r: Record)
    requires Legal(p, s, es)
    decreases |es|
  {
    Counts(s, a, r) && (es != [] ==> CountsThroughout(p, Next(p, s, es[0]), es[1..], a, Follow(p, s, es[0], a, r)))
  }

  lemma {:induction false} RunCounts(p: Policy, s: State, es: seq<Event>, a: AccountId, r: Record)
    requires Legal(p, s, es) && Waits(p, s, a, r) && Counts(s, a, r)
    ensures CountsThroughout(p, s, es, a, r) <==> NeverOutdated(p, s, es, a)
    decreases |es|
  {
    if es != [] {
      StepWaits(p, s, es[0], a, r);
      var s', r' := Next(p, s, es[0]), Follow(p, s, es[0], a, r);
      if Counts(s', a, r') { RunCounts(p, s', es[1..], a, r'); }
    }
  }

  /** In every run, an account awaiting recovery that has failed n times by its own
      count is next tried at its last failure plus the first wait doubled n - 1
      times, capped; one that has not failed is tried at once. */
  lemma WaitsDouble(p: Policy, now: real, es: seq<Event>, a: AccountId)
    requires Legal(p, Start(now), es) && IsAwaiting(Exec(p, Start(now), es).store, a)
    ensures var session, r := Exec(p, Start(now), es).store.accounts[a].session, History(p, Start(now), es, a, CLEAN);
            if session.attempts == 0 then session.nextAttemptAt == 0.0 && r.failures == 0
            else session.nextAttemptAt == r.failedAt + Wait(p, session.attempts)
  {
    RunWaits(p, Start(now), es, a, CLEAN);
  }

  /** And that count is, all along a run, how often it has failed since it was last
      flagged, exactly as long as no attempt fails that was taken up under another
      count, before the flag. */
  lemma CountIsOfFailuresIff(p: Policy, now: real, es: seq<Event>, a: AccountId)
    requires Legal(p, Start(now), es)
    ensures CountsThroughout(p, Start(now), es, a, CLEAN) <==> NeverOutdated(p, Start(now), es, a)
  {
    RunCounts(p, Start(now), es, a, CLEAN);
  }

  /** It does happen: an account that has failed once is being tried again when the
      link is lost and comes back without the application, so that the account is
      flagged anew; then the old attempt fails, and counts for two. */
  function Overtaken(c: Credentials): seq<Event> {
    Dropping(c) + ([Turn, Attempted(true, NoAnswer), Tick(1.0), Turn]
                   + ([LinkLost, LinkRestored, AppRestored(false)] + [Attempted(true, NoAnswer)]))
  }

  ghost predicate Alone(s: State, c: Credentials, session: Session) {
    s.store == Store([c.accountId], map[c.accountId := Tracked(c, session)])
  }

  lemma OnlyDue(s: State, c: Credentials, n: nat, at: real)
    requires Alone(s, c, AwaitingRecovery(n, at)) && at <= s.now && s.loop.Top? && !s.appPending
    ensures var s' := TakeTurn(s);
            s' == s.(signal := s'.signal, nextEvent := s'.nextEvent, loop := Attempting([Due(c.accountId, c, n, at)]))
  {
    var a := c.accountId;
    assert AwaitingIn(s.store, [a]) == [Due(a, c, n, at)] + AwaitingIn(s.store, []);
    assert DueNow([Due(a, c, n, at)], s.now) == [Due(a, c, n, at)];
  }

  lemma FailedOnce(p: Policy, s: State, c: Credentials)
    requires p == Policy(1.0, 60.0) && OneDropped(s, c)
    ensures var es := [Turn, Attempted(true, NoAnswer), Tick(1.0), Turn];
            && Legal(p, s, es)
            && var s' := Exec(p, s, es);
               && Alone(s', c, AwaitingRecovery(1, 1.0)) && s'.now == 1.0 && !s'.appPending && s'.restorer.Absent?
               && s'.loop == Attempting([Due(c.accountId, c, 1, 1.0)])
  {
    var a := c.accountId;
    OnlyDue(s, c, 0, 0.0);
    var s1 := Next(p, s, Turn);
    var s2 := Next(p, s1, Attempted(true, NoAnswer));
    assert Alone(s2, c, AwaitingRecovery(1, 1.0)) && s2.loop == Top;
    var s3 := Next(p, s2, Tick(1.0));
    OnlyDue(s3, c, 1, 1.0);
    Prepend(p, s3, Turn, []);
    Prepend(p, s2, Tick(1.0), [Turn]);
    Prepend(p, s1, Attempted(true, NoAnswer), [Tick(1.0), Turn]);
    Prepend(p, s, Turn, [Attempted(true, NoAnswer), Tick(1.0), Turn]);
  }

  lemma FlaggedAnew(p: Policy, s: State, c: Credentials, r: Record)
    requires s.restorer.Absent? && Alone(s, c, AwaitingRecovery(1, 1.0))
    ensures var es := [LinkLost, LinkRestored, AppRestored(false)];
            && Legal(p, s, es)
            && Alone(Exec(p, s, es), c, JUST_DROPPED) && Exec(p, s, es).loop == s.loop
            && History(p, s, es, c.accountId, r) == CLEAN
  {
    var a := c.accountId;
    var s1 := Next(p, s, LinkLost);
    assert Alone(s1, c, NoSession);
    var s2 := Next(p, s1, LinkRestored);
    var s3 := Next(p, s2, AppRestored(false));
    assert FlagAll(s2.store, [a]) == FlagAll(Apply(s2.store, Flag(a)), []);
    assert Alone(s3, c, JUST_DROPPED);
    Prepend(p, s2, AppRestored(false), []);
    Prepend(p, s1, LinkRestored, [AppRestored(false)]);
    Prepend(p, s, LinkLost, [LinkRestored, AppRestored(false)]);
    HistoryCons(p, s, LinkLost, [LinkRestored, AppRestored(false)], a, r);
    HistoryCons(p, s1, LinkRestored, [AppRestored(false)], a, CLEAN);
    HistoryCons(p, s2, AppRestored(false), [], a, CLEAN);
  }

  lemma FailedAgain(p: Policy, s: State, c: Credentials, r: Record)
    requires Alone(s, c, JUST_DROPPED) && s.loop == Attempting([Due(c.accountId, c, 1, 1.0)])
    ensures var es := [Attempted(true, NoAnswer)];
            && Legal(p, s, es)
            && IsAwaiting(Exec(p, s, es).store, c.accountId)
            && Exec(p, s, es).store.accounts[c.accountId].session.attempts == 2
            && History(p, s, es, c.accountId, r).failures == r.failures + 1
  {
    var s1 := Next(p, s, Attempted(true, NoAnswer));
    assert s1.store.accounts[c.accountId].session.attempts == 2;
    Prepend(p, s, Attempted(true, NoAnswer), []);
    HistoryCons(p, s, Attempted(true, NoAnswer), [], c.accountId, r);
  }

  lemma HistoryCons(p: Policy, s: State, e: Event, es: seq<Event>, a: AccountId, r: Record)
    requires Enabled(s, e) && Legal(p, Next(p, s, e), es)
    ensures Legal(p, s, [e] + es)
    ensures History(p, s, [e] + es, a, r) == History(p, Next(p, s, e), es, a, Follow(p, s, e, a, r))
  {
    assert ([e] + es)[1..] == es;
  }

  lemma {:induction false} HistoryJoin(p: Policy, s: State, es: seq<Event>, more: seq<Event>, a: AccountId, r: Record)
    requires Legal(p, s, es) && Legal(p, Exec(p, s, es), more)
    ensures Legal(p, s, es + more)
    ensures History(p, s, es + more, a, r) == History(p, Exec(p, s, es), more, a, History(p, s, es, a, r))
    decreases |es|
  {
    if es == [] {
      assert es + more == more;
    } else {
      assert (es + more)[1..] == es[1..] + more;
      HistoryJoin(p, Next(p, s, es[0]), es[1..], more, a, Follow(p, s, es[0], a, r));
    }
  }

  lemma OldFailureCountsOn(c: Credentials)
    ensures var p := Policy(1.0, 60.0);
            && Legal(p, Start(0.0), Overtaken(c))
            && IsAwaiting(Exec(p, Start(0.0), Overtaken(c)).store, c.accountId)
            && Exec(p, Start(0.0), Overtaken(c)).store.accounts[c.accountId].session.attempts == 2
            && History(p, Start(0.0), Overtaken(c), c.accountId, CLEAN).failures == 1
  {
    var p := Policy(1.0, 60.0);
    var first, flagged, again := [Turn, Attempted(true, NoAnswer), Tick(1.0), Turn],
                                 [LinkLost, LinkRestored, AppRestored(false)], [Attempted(true, NoAnswer)];
    var a := c.accountId;
    JustDropped(p, c);
    var s := Exec(p, Start(0.0), Dropping(c));
    FailedOnce(p, s, c);
    var s1 := Exec(p, s, first);
    var r := History(p, Start(0.0), Dropping(c), a, CLEAN);
    var r1 := History(p, s, first, a, r);
    FlaggedAnew(p, s1, c, r1);
    FailedAgain(p, Exec(p, s1, flagged), c, CLEAN);
    Join(p, s1, flagged, again);
    Join(p, s, first, flagged + again);
    Join(p, Start(0.0), Dropping(c), first + (flagged + again));
    HistoryJoin(p, s1, flagged, again, a, r1);
    HistoryJoin(p, s, first, flagged + again, a, r);
    HistoryJoin(p, Start(0.0), Dropping(c), first + (flagged + again), a, CLEAN);
  }

  // ---------------------------------------------------------------------
  // The application
  // ---------------------------------------------------------------------

  /** The first failure arms the recovery of the application. */
  function FollowApp(s: State, e: Event, r: Record): Record {
    if e == AppRestored(false) then Record(1, s.now)
    else if e == AppAnswered(false) then Record(r.failures + 1, s.now)
    else if e == AppAnswered(true) then CLEAN
    else r
  }

  ghost function AppHistory(p: Policy, s: State, es: seq<Event>, r: Record): Record
    requires Legal(p, s, es)
    decreases |es|
  {
    if es == [] then r else AppHistory(p, Next(p, s, es[0]), es[1..], FollowApp(s, es[0], r))
  }

  ghost predicate AppWaits(p: Policy, s: State, r: Record) {
    && s.appAttempts == r.failures
    && (s.appPending ==> r.failures > 0)
    && (r.failures > 0 ==> r.failedAt <= s.now && s.appNextAt == r.failedAt + Wait(p, r.failures))
  }

  lemma StepAppWaits(p: Policy, s: State, e: Event, r: Record)
    requires Enabled(s, e) && AppWaits(p, s, r)
    ensures AppWaits(p, Next(p, s, e), FollowApp(s, e, r))
  {
    WaitIsDelay(p, s.appAttempts + 1);
    WaitIsDelay(p, 1);
  }

  lemma {:induction false} RunAppWaits(p: Policy, s: State, es: seq<Event>, r: Record)
    requires Legal(p, s, es) && AppWaits(p, s, r)
    ensures AppWaits(p, Exec(p, s, es), AppHistory(p, s, es, r))
    decreases |es|
  {
    if es != [] {
      StepAppWaits(p, s, es[0], r);
      RunAppWaits(p, Next(p, s, es[0]), es[1..], FollowApp(s, es[0], r));
    }
  }

  /** In every run, an application that is to be authenticated again has failed
      n > 0 times since its recovery was armed, and is next tried at its last
      failure plus the first wait doubled n - 1 times, capped. */
  lemma AppWaitsDouble(p: Policy, now: real, es: seq<Event>)
    requires Legal(p, Start(now), es) && Exec(p, Start(now), es).appPending
    ensures var s, r := Exec(p, Start(now), es), AppHistory(p, Start(now), es, CLEAN);
            s.appAttempts == r.failures > 0 && s.appNextAt == r.failedAt + Wait(p, r.failures)
  {
    RunAppWaits(p, Start(now), es, CLEAN);
  }

  // ---------------------------------------------------------------------
  // Bounded backoff
  // ---------------------------------------------------------------------

  /** An account awaiting recovery has just been dropped, or has failed before and
      will be tried again within the longest wait from now. */
  ghost predicate BoundedSession(p: Policy, now: real, session: Session) {
    session.AwaitingRecovery? ==>
      session == JUST_DROPPED || (session.attempts > 0 && session.nextAttemptAt <= now + p.maxWait)
  }

  /** In every reachable state each backoff is bounded, the application's too. */
  lemma BackoffIsBounded(p: Policy, now: real, es: seq<Event>, a: AccountId)
    requires Legal(p, Start(now), es)
    ensures var s := Exec(p, Start(now), es);
            && (a in s.store.accounts ==> BoundedSession(p, s.now, s.store.accounts[a].session))
            && (s.appPending ==> s.appAttempts > 0 && s.appNextAt <= s.now + p.maxWait)
  {
    RunWaits(p, Start(now), es, a, CLEAN);
    RunAppWaits(p, Start(now), es, CLEAN);
  }
}
