/** What every run of session recovery keeps. */
module RecoveryProofs {
  import opened Sessions
  import opened Backoff
  import opened Replies
  import opened Recovery

  // ---------------------------------------------------------------------
  // The queue is what the store holds
  // ---------------------------------------------------------------------

  ghost predicate Lists(s: Store, d: Due) {
    IsAwaiting(s, d.account)
    && s.accounts[d.account] == Tracked(d.credentials, AwaitingRecovery(d.attempts, d.nextAttemptAt))
  }

  lemma {:induction false} QueueLists(s: Store, order: seq<AccountId>)
    ensures forall d :: d in AwaitingIn(s, order) <==> d.account in order && Lists(s, d)
  {
    if order != [] {
      QueueLists(s, order[1..]);
      assert order == [order[0]] + order[1..];
    }
  }

  /** The queue holds exactly the accounts awaiting recovery. */
  lemma AwaitingLists(s: Store)
    requires WellFormed(s)
    ensures forall d :: d in Awaiting(s) <==> Lists(s, d)
    ensures Awaiting(s) == [] <==> forall a :: !IsAwaiting(s, a)
  {
    QueueLists(s, s.order);
    if Awaiting(s) != [] {
      assert Awaiting(s)[0] in Awaiting(s);
    }
    forall a | IsAwaiting(s, a) ensures Awaiting(s) != [] {
      var t := s.accounts[a];
      assert Due(a, t.credentials, t.session.attempts, t.session.nextAttemptAt) in Awaiting(s);
    }
  }

  lemma {:induction false} DueMeans(queue: seq<Due>, now: real)
    ensures forall d :: d in DueNow(queue, now) <==> d in queue && d.nextAttemptAt <= now
  {
    if queue != [] {
      DueMeans(queue[1..], now);
      assert queue == [queue[0]] + queue[1..];
    }
  }

  lemma {:induction false} SoonestIsLeast(queue: seq<Due>)
    requires queue != []
    ensures forall d | d in queue :: Soonest(queue) <= d.nextAttemptAt
    ensures exists d | d in queue :: Soonest(queue) == d.nextAttemptAt
    decreases |queue|
  {
    assert queue == [queue[0]] + queue[1..] && queue[0] in queue;
    if |queue| > 1 {
      SoonestIsLeast(queue[1..]);
      if queue[0].nextAttemptAt > Soonest(queue[1..]) {
        var d :| d in queue[1..] && Soonest(queue[1..]) == d.nextAttemptAt;
        assert d in queue;
      }
    }
  }

  // ---------------------------------------------------------------------
  // The store keeps its shape, and only a flag adds to what awaits
  // ---------------------------------------------------------------------

  /** Every account awaiting afterwards was awaiting before, in the same state. */
  ghost predicate AddsNone(s: Store, s': Store) {
    forall a | IsAwaiting(s', a) :: IsAwaiting(s, a) && s'.accounts[a].session == s.accounts[a].session
  }

  /** Every account awaiting afterwards was awaiting before in the same state, or has just been dropped. */
  ghost predicate AddsDropped(s: Store, s': Store) {
    forall a | IsAwaiting(s', a) ::
      s'.accounts[a].session == JUST_DROPPED
      || (IsAwaiting(s, a) && s'.accounts[a].session == s.accounts[a].session)
  }

  /** Flagging accounts changes the sessions of those that are held and not awaiting
      already, and nothing else. */
  lemma {:induction false} FlagAllIs(s: Store, order: seq<AccountId>)
    ensures var s' := FlagAll(s, order);
            && s'.order == s.order && s'.accounts.Keys == s.accounts.Keys
            && forall a | a in s.accounts ::
                 s'.accounts[a] == if a in order && !IsAwaiting(s, a) then Tracked(s.accounts[a].credentials, JUST_DROPPED)
                                   else s.accounts[a]
    decreases |order|
  {
    if order != [] {
      assert order == [order[0]] + order[1..];
      FlagAllIs(Apply(s, Flag(order[0])), order[1..]);
    }
  }

  lemma FlagAllAdds(s: Store, order: seq<AccountId>)
    requires WellFormed(s)
    ensures WellFormed(FlagAll(s, order)) && AddsDropped(s, FlagAll(s, order))
  {
    FlagAllIs(s, order);
  }

  // ---------------------------------------------------------------------
  // What a step leaves alone
  // ---------------------------------------------------------------------

  predicate IsLoopStep(e: Event) { e.Turn? || e.Wake? || e.AppAnswered? || e.Attempted? || e.Settled? }

  predicate IsCheckStep(e: Event) { e.CheckDisconnect? || e.Probed? || e.Emitted? || e.CheckCancelled? }

  predicate IsRestoreStep(e: Event) { e.LinkRestored? || e.AppRestored? || e.AccountRestored? || e.AccountSettled? }

  /** The log only grows; checks are changed by steps of their own, and so is the
      restorer; and each kind of step logs its own kind of entry, if any. */
  ghost predicate Framed(s: State, s': State, e: Event) {
    && |s.log| <= |s'.log| && s'.log[..|s.log|] == s.log
    && (!IsCheckStep(e) ==> s'.checks == s.checks && s'.verifying == s.verifying && |s'.log| <= |s.log| + 1)
    && (!IsRestoreStep(e) ==> s'.restorer == s.restorer)
    && forall k | |s.log| <= k < |s'.log| ::
         && (s'.log[k].Ready? <==> e.Settled?)
         && (s'.log[k].Reconnected? <==> IsRestoreStep(e))
  }

  lemma StepFramed(p: Policy, s: State, e: Event)
    requires Enabled(s, e)
    ensures Framed(s, Next(p, s, e), e)
  {
    if IsLoopStep(e) { LoopFramed(p, s, e); }
    else if IsCheckStep(e) { CheckFramed(p, s, e); }
    else if IsRestoreStep(e) { RestoreFramed(p, s, e); }
  }

  lemma LoopFramed(p: Policy, s: State, e: Event)
    requires Enabled(s, e) && IsLoopStep(e)
    ensures Framed(s, Next(p, s, e), e)
  {
  }

  lemma CheckFramed(p: Policy, s: State, e: Event)
    requires Enabled(s, e) && IsCheckStep(e)
    ensures Framed(s, Next(p, s, e), e)
  {
  }

  lemma RestoreFramed(p: Policy, s: State, e: Event)
    requires Enabled(s, e) && IsRestoreStep(e)
    ensures Framed(s, Next(p, s, e), e)
  {
  }

  // ---------------------------------------------------------------------
  // No lost wake-up
  // ---------------------------------------------------------------------

  /** Whenever the loop is blocked, something will wake it in time: the event it
      waits on is set, or its wait ends before anything it is to attend to falls
      due, or there is nothing to attend to. Every timed wait is a real one. */
  ghost predicate WillWake(s: State) {
    match s.loop
    case Idle(f) => f in s.raised || (!s.appPending && forall a :: !IsAwaiting(s.store, a))
    case Waiting(f, began, wakeAt) =>
      && began < wakeAt
      && (f in s.raised
          || (if s.appPending then wakeAt <= s.appNextAt
              else forall a | IsAwaiting(s.store, a) :: wakeAt <= s.store.accounts[a].session.nextAttemptAt))
    case _ => true
  }

  /** The event the loop waits on is the one that will be set. */
  ghost predicate Listening(s: State) {
    && s.signal < s.nextEvent
    && (forall v | v in s.raised :: v < s.nextEvent)
    && (match s.loop
        case Idle(f) => f == s.signal
        case Waiting(f, _, _) => f == s.signal
        case RetryingApp(f) => f == s.signal
        case _ => true)
  }

  ghost predicate WakeInv(s: State) { WellFormed(s.store) && Listening(s) && WillWake(s) }

  lemma ServeQueueWakes(s: State, f: EventId)
    requires WellFormed(s.store) && s.signal == f && s.signal < s.nextEvent && !s.appPending
    requires forall v | v in s.raised :: v < s.nextEvent
    ensures WakeInv(ServeQueue(s, f))
  {
    var queue := Awaiting(s.store);
    AwaitingLists(s.store);
    if queue != [] && DueNow(queue, s.now) == [] {
      DueMeans(queue, s.now);
      SoonestIsLeast(queue);
      var soonest := Soonest(queue);
      assert soonest > s.now;
      forall a | IsAwaiting(s.store, a) ensures soonest <= s.store.accounts[a].session.nextAttemptAt {
        var t := s.store.accounts[a];
        assert Due(a, t.credentials, t.session.attempts, t.session.nextAttemptAt) in queue;
      }
    }
  }

  lemma TurnWakes(s: State)
    requires WakeInv(s) && s.loop.Top?
    ensures WakeInv(TakeTurn(s))
  {
    var s1 := if s.signal in s.raised then s.(signal := s.nextEvent, nextEvent := s.nextEvent + 1) else s;
    if !s1.appPending { ServeQueueWakes(s1, s1.signal); }
  }

  lemma LoopStepWakes(p: Policy, s: State, e: Event)
    requires WakeInv(s) && Enabled(s, e)
    requires e.Wake? || e.AppAnswered? || e.Attempted? || e.Settled?
    ensures WakeInv(Next(p, s, e))
  {
    match e
    case AppAnswered(ok) =>
      if ok { ServeQueueWakes(s.(appPending := false, appAttempts := 0), s.loop.flagged); }
    case Attempted(expired, reply) => AttemptWakes(p, s, Verdict(expired, reply));
    case Settled(ok) => SettlingWakes(p, s, ok);
    case _ =>
  }

  lemma AttemptWakes(p: Policy, s: State, outcome: Established)
    requires WakeInv(s) && s.loop.Attempting? && s.loop.queue != []
    ensures WakeInv(AfterAttempt(p, s, outcome))
  {
    if outcome == Success || outcome == AccountRefused(true) {
      ForeignStepWakes(p, s, Authorize(s.loop.queue[0].credentials));
    } else {
      DeferWakes(p, s, s.loop.queue[0]);
    }
  }

  lemma DeferWakes(p: Policy, s: State, d: Due)
    requires WakeInv(s) && !s.loop.Idle? && !s.loop.Waiting?
    ensures WakeInv(Defer(p, s, d))
  {
    ApplyWellFormed(s.store, Reschedule(d.account, d.attempts + 1, s.now + Delay(p, d.attempts + 1)));
  }

  lemma SettlingWakes(p: Policy, s: State, ok: bool)
    requires WakeInv(s) && (s.loop.Settling? || s.loop.Announcing?) && s.loop.queue != []
    ensures WakeInv(AfterSettling(p, s, ok))
  {
    DeferWakes(p, s, s.loop.queue[0]);
  }

  lemma CheckStepWakes(p: Policy, s: State, e: Event)
    requires WakeInv(s) && Enabled(s, e)
    requires e.CheckDisconnect? || e.Probed? || e.Emitted? || e.CheckCancelled?
    ensures WakeInv(Next(p, s, e))
  {
    if e.Probed? { ApplyWellFormed(s.store, Flag(s.checks[e.task].account)); }
  }

  lemma ForeignStepWakes(p: Policy, s: State, op: Op)
    requires WakeInv(s) && (IsForeign(op) || op == InvalidateAll)
    ensures WakeInv(s.(store := Apply(s.store, op)))
  {
    ApplyWellFormed(s.store, op);
    assert AddsNone(s.store, Apply(s.store, op));
  }

  lemma LinkStepWakes(p: Policy, s: State, e: Event)
    requires WakeInv(s) && Enabled(s, e)
    requires e.LinkLost? || e.LinkRestored? || e.AppRestored? || e.AccountRestored? || e.AccountSettled? || e.Shutdown?
    ensures WakeInv(Next(p, s, e))
  {
    match e
    case AppRestored(ok) => AppRestoredWakes(p, s, ok);
    case AccountRestored(_, _) => AccountRestoredWakes(p, s, e);
    case LinkLost => ForeignStepWakes(p, s, InvalidateAll);
    case Shutdown => ForeignStepWakes(p, s, InvalidateAll);
    case _ =>
  }

  lemma AppRestoredWakes(p: Policy, s: State, ok: bool)
    requires WakeInv(s)
    ensures WakeInv(AfterAppRestored(p, s, ok))
  {
    if !ok { FlagAllAdds(s.store, s.store.order); }
  }

  lemma AccountRestoredWakes(p: Policy, s: State, e: Event)
    requires WakeInv(s) && Enabled(s, e) && e.AccountRestored?
    ensures WakeInv(Next(p, s, e))
  {
    if Verdict(e.expired, e.reply) == Success { ForeignStepWakes(p, s, Authorize(s.restorer.todo[0])); }
  }

  lemma StepWakes(p: Policy, s: State, e: Event)
    requires WakeInv(s) && Enabled(s, e)
    ensures WakeInv(Next(p, s, e))
  {
    match e
    case Turn => TurnWakes(s);
    case Wake => LoopStepWakes(p, s, e);
    case AppAnswered(_) => LoopStepWakes(p, s, e);
    case Attempted(_, _) => LoopStepWakes(p, s, e);
    case Settled(_) => LoopStepWakes(p, s, e);
    case CheckDisconnect(_, _) => CheckStepWakes(p, s, e);
    case Probed(_, _) => CheckStepWakes(p, s, e);
    case Emitted(_) => CheckStepWakes(p, s, e);
    case CheckCancelled(_) => CheckStepWakes(p, s, e);
    case Foreign(op) => ForeignStepWakes(p, s, op);
    case Tick(_) =>
    case _ => LinkStepWakes(p, s, e);
  }

  lemma {:induction false} RunWakes(p: Policy, s: State, es: seq<Event>)
    requires WakeInv(s) && Legal(p, s, es)
    ensures WakeInv(Exec(p, s, es))
    decreases es
  {
    if es != [] {
      StepWakes(p, s, es[0]);
      RunWakes(p, Next(p, s, es[0]), es[1..]);
    }
  }

  /** In every run, whatever other tasks do in between, a blocked recovery loop
      will be woken in time for everything it has to attend to. */
  lemma NoLostWakeUp(p: Policy, now: real, es: seq<Event>)
    requires Legal(p, Start(now), es)
    ensures WillWake(Exec(p, Start(now), es))
  {
    RunWakes(p, Start(now), es);
  }

  /** So whenever the loop is blocked and something is due, it can run. */
  lemma DueMeansAwake(p: Policy, now: real, es: seq<Event>, a: AccountId)
    requires Legal(p, Start(now), es)
    requires var s := Exec(p, Start(now), es);
             && (s.loop.Idle? || s.loop.Waiting?)
             && (if s.appPending then s.appNextAt <= s.now
                 else IsAwaiting(s.store, a) && s.store.accounts[a].session.nextAttemptAt <= s.now)
    ensures Enabled(Exec(p, Start(now), es), Wake)
  {
    NoLostWakeUp(p, now, es);
  }

  // ---------------------------------------------------------------------
  // Putting runs together
  // ---------------------------------------------------------------------

  lemma Prepend(p: Policy, s: State, e: Event, es: seq<Event>)
    requires Enabled(s, e) && Legal(p, Next(p, s, e), es)
    ensures Legal(p, s, [e] + es) && Exec(p, s, [e] + es) == Exec(p, Next(p, s, e), es)
  {
    assert ([e] + es)[1..] == es;
  }

  lemma {:induction false} Join(p: Policy, s: State, es: seq<Event>, more: seq<Event>)
    requires Legal(p, s, es) && Legal(p, Exec(p, s, es), more)
    ensures Legal(p, s, es + more) && Exec(p, s, es + more) == Exec(p, Exec(p, s, es), more)
    decreases |es|
  {
    if es == [] {
      assert es + more == more;
    } else {
      assert (es + more)[1..] == es[1..] + more;
      Join(p, Next(p, s, es[0]), es[1..], more);
    }
  }

  lemma {:induction false} Snoc(p: Policy, s: State, es: seq<Event>)
    requires Legal(p, s, es) && es != []
    ensures var before, last := es[..|es| - 1], es[|es| - 1];
            && Legal(p, s, before) && Enabled(Exec(p, s, before), last)
            && Exec(p, s, es) == Next(p, Exec(p, s, before), last)
    decreases |es|
  {
    if |es| == 1 {
      assert es[..0] == [] && es[1..] == [];
    } else {
      var rest := es[1..];
      Snoc(p, Next(p, s, es[0]), rest);
      assert es[..|es| - 1] == [es[0]] + rest[..|rest| - 1];
      Prepend(p, s, es[0], rest[..|rest| - 1]);
    }
  }

  /** One account, authorized and then dropped by the server. */
  function Dropping(c: Credentials): seq<Event> {
    [Foreign(Authorize(c)), CheckDisconnect(0, c.accountId), Probed(0, ApiError(OtherCode))]
  }

  ghost predicate OneDropped(s: State, c: Credentials) {
    && s.store == Store([c.accountId], map[c.accountId := Tracked(c, JUST_DROPPED)])
    && s.loop.Top? && s.restorer.Absent? && !s.appPending && s.now == 0.0 && s.raised == {0} && s.signal == 0 && s.nextEvent == 1
  }

  lemma JustDropped(p: Policy, c: Credentials)
    ensures Legal(p, Start(0.0), Dropping(c)) && OneDropped(Exec(p, Start(0.0), Dropping(c)), c)
  {
    var s1 := Next(p, Start(0.0), Foreign(Authorize(c)));
    assert s1.store == Store([c.accountId], map[c.accountId := Tracked(c, Authorized)]);
    var s2 := Next(p, s1, CheckDisconnect(0, c.accountId));
    assert s2.checks == map[0 := Probing(c.accountId)];
    var s3 := Next(p, s2, Probed(0, ApiError(OtherCode)));
    assert s3.store == Store([c.accountId], map[c.accountId := Tracked(c, JUST_DROPPED)]);
    assert OneDropped(s3, c);
    Prepend(p, s2, Probed(0, ApiError(OtherCode)), []);
    Prepend(p, s1, CheckDisconnect(0, c.accountId), [Probed(0, ApiError(OtherCode))]);
    Prepend(p, Start(0.0), Foreign(Authorize(c)), [CheckDisconnect(0, c.accountId), Probed(0, ApiError(OtherCode))]);
  }
}
