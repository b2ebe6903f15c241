/** What the recovery does, step by step and answer by answer, in terms of the
    accounts and the events of a run. */
module RecoveryTheorems {
  import opened Collections
  import opened Sessions
  import opened Backoff
  import opened Replies
  import opened Recovery
  import opened RecoveryProofs

  // ---------------------------------------------------------------------
  // Which accounts are tried, and when
  // ---------------------------------------------------------------------

  predicate DueAt(s: Store, a: AccountId, now: real) {
    IsAwaiting(s, a) && s.accounts[a].session.nextAttemptAt <= now
  }

  /** One sequence is what is left of another when some of it is left out. */
  ghost predicate Within(part: seq<AccountId>, whole: seq<AccountId>)
    decreases |whole|
  {
    part == [] || (whole != [] && (if part[0] == whole[0] then Within(part[1..], whole[1..]) else Within(part, whole[1..])))
  }

  function Accounts(queue: seq<Due>): seq<AccountId> {
    if queue == [] then [] else [queue[0].account] + Accounts(queue[1..])
  }

  lemma {:induction false} DueNowCons(d: Due, rest: seq<Due>, now: real)
    ensures DueNow([d] + rest, now) == (if d.nextAttemptAt <= now then [d] else []) + DueNow(rest, now)
  {
    assert ([d] + rest)[1..] == rest;
  }

  lemma {:induction false} DueInOrder(s: Store, order: seq<AccountId>, now: real)
    requires Distinct(order)
    ensures Within(Accounts(DueNow(AwaitingIn(s, order), now)), order)
    ensures forall a | a in Accounts(DueNow(AwaitingIn(s, order), now)) :: a in order
    decreases |order|
  {
    if order != [] {
      var rest := AwaitingIn(s, order[1..]);
      DueInOrder(s, order[1..], now);
      assert order == [order[0]] + order[1..];
      assert order[0] !in order[1..];
      if IsAwaiting(s, order[0]) {
        var t := s.accounts[order[0]];
        var d := Due(order[0], t.credentials, t.session.attempts, t.session.nextAttemptAt);
        assert AwaitingIn(s, order) == [d] + rest;
        DueNowCons(d, rest, now);
        if d.nextAttemptAt <= now {
          var queue := [d] + DueNow(rest, now);
          assert queue[1..] == DueNow(rest, now);
          assert Accounts(queue) == [order[0]] + Accounts(DueNow(rest, now));
          assert Accounts(queue)[1..] == Accounts(DueNow(rest, now));
        } else {
          assert [] + DueNow(rest, now) == DueNow(rest, now);
        }
      } else {
        assert [] + rest == rest;
      }
      var part := Accounts(DueNow(AwaitingIn(s, order), now));
      if part != [] && part[0] != order[0] { assert part == Accounts(DueNow(rest, now)); }
    }
  }

  lemma {:induction false} AccountsAre(queue: seq<Due>)
    ensures forall a :: a in Accounts(queue) <==> exists d :: d in queue && d.account == a
  {
    if queue != [] {
      AccountsAre(queue[1..]);
      assert queue == [queue[0]] + queue[1..];
    }
  }

  /** What there is to do for the accounts, once the application is settled: try
      exactly those that are due, oldest first; wait for the earliest if none is;
      and wait to be flagged if there are none. */
  ghost predicate ServesAccounts(store: Store, now: real, loop: Loop) {
    match loop
    case Idle(_) => forall a :: !IsAwaiting(store, a)
    case Waiting(_, began, wakeAt) =>
      && began == now < wakeAt
      && (forall a | IsAwaiting(store, a) :: wakeAt <= store.accounts[a].session.nextAttemptAt)
      && (exists a :: IsAwaiting(store, a) && store.accounts[a].session.nextAttemptAt == wakeAt)
    case Attempting(queue) =>
      && queue != []
      && (forall a :: a in Accounts(queue) <==> DueAt(store, a, now))
      && (forall d | d in queue :: Lists(store, d))
      && Within(Accounts(queue), store.order)
    case _ => false
  }

  lemma ServeQueueServes(s: State, f: EventId)
    requires WellFormed(s.store)
    ensures ServesAccounts(s.store, s.now, ServeQueue(s, f).loop)
  {
    var queue := Awaiting(s.store);
    AwaitingLists(s.store);
    if queue != [] {
      var due := DueNow(queue, s.now);
      DueMeans(queue, s.now);
      if due == [] { WaitServes(s); } else { DueServes(s); }
    }
  }

  lemma WaitServes(s: State)
    requires WellFormed(s.store) && Awaiting(s.store) != [] && DueNow(Awaiting(s.store), s.now) == []
    ensures forall f :: ServesAccounts(s.store, s.now, Waiting(f, s.now, Soonest(Awaiting(s.store))))
  {
    var queue := Awaiting(s.store);
    AwaitingLists(s.store);
    DueMeans(queue, s.now);
    SoonestIsLeast(queue);
    forall a | IsAwaiting(s.store, a) ensures Soonest(queue) <= s.store.accounts[a].session.nextAttemptAt {
      var t := s.store.accounts[a];
      assert Due(a, t.credentials, t.session.attempts, t.session.nextAttemptAt) in queue;
    }
    var d :| d in queue && Soonest(queue) == d.nextAttemptAt;
    assert IsAwaiting(s.store, d.account) && s.store.accounts[d.account].session.nextAttemptAt == Soonest(queue);
  }

  lemma DueServes(s: State)
    requires WellFormed(s.store) && DueNow(Awaiting(s.store), s.now) != []
    ensures ServesAccounts(s.store, s.now, Attempting(DueNow(Awaiting(s.store), s.now)))
  {
    var queue := Awaiting(s.store);
    var due := DueNow(queue, s.now);
    AwaitingLists(s.store);
    DueMeans(queue, s.now);
    AccountsAre(due);
    DueInOrder(s.store, s.store.order, s.now);
    forall a ensures a in Accounts(due) <==> DueAt(s.store, a, s.now) {
      if DueAt(s.store, a, s.now) {
        var t := s.store.accounts[a];
        assert Due(a, t.credentials, t.session.attempts, t.session.nextAttemptAt) in due;
      }
    }
  }

  /** In every run, a turn of the loop attends to the application first, if that is
      pending: it waits until its time, or tries it. Otherwise, and as soon as the
      application is authenticated, it serves the accounts. */
  lemma TurnServes(p: Policy, now: real, es: seq<Event>, e: Event)
    requires Legal(p, Start(now), es) && Enabled(Exec(p, Start(now), es), e) && e in {Turn, AppAnswered(true)}
    ensures var s, s' := Exec(p, Start(now), es), Next(p, Exec(p, Start(now), es), e);
            && s'.store == s.store && s'.now == s.now
            && if e.Turn? && s.appPending
               then (if s.appNextAt > s.now then s'.loop == Waiting(s'.signal, s.now, s.appNextAt) else s'.loop == RetryingApp(s'.signal))
               else !s'.appPending && ServesAccounts(s.store, s.now, s'.loop)
  {
    var s := Exec(p, Start(now), es);
    RunWakes(p, Start(now), es);
    if e.Turn? {
      var s1 := if s.signal in s.raised then s.(signal := s.nextEvent, nextEvent := s.nextEvent + 1) else s;
      if !s.appPending { ServeQueueServes(s1, s1.signal); }
    } else {
      ServeQueueServes(s.(appPending := false, appAttempts := 0), s.loop.flagged);
    }
  }

  // ---------------------------------------------------------------------
  // What an answer does
  // ---------------------------------------------------------------------

  /** A reason to mark an account as authorized. */
  predicate Authorizes(s: State, e: Event, a: AccountId)
    requires Enabled(s, e)
  {
    match e
    case Attempted(expired, reply) =>
      !expired && (reply == Answered || reply == ApiError(AlreadyLoggedIn)) && s.loop.queue[0].credentials.accountId == a
    case AccountRestored(expired, reply) => !expired && reply == Answered && s.restorer.todo[0].accountId == a
    case Foreign(op) => op.Authorize? && op.credentials.accountId == a
    case _ => false
  }

  /** An account comes to be authorized only when the server has accepted it, or the
      recovery loop is told that it is logged in already, or another task has had it
      authorized; and whenever one of these happens, it is. */
  lemma AuthorizedExactlyWhen(p: Policy, s: State, e: Event, a: AccountId)
    requires Enabled(s, e)
    ensures Authorizes(s, e, a) ==> IsAuthorized(Next(p, s, e).store, a)
    ensures IsAuthorized(Next(p, s, e).store, a) ==> IsAuthorized(s.store, a) || Authorizes(s, e, a)
  {
    match e
    case AppRestored(ok) => if !ok { FlagAllIs(s.store, s.store.order); }
    case Attempted(expired, reply) => AttemptAuthorizes(p, s, expired, reply, a);
    case _ =>
  }

  lemma AttemptAuthorizes(p: Policy, s: State, expired: bool, reply: Reply, a: AccountId)
    requires Enabled(s, Attempted(expired, reply))
    ensures var e := Attempted(expired, reply);
            && (Authorizes(s, e, a) ==> IsAuthorized(Next(p, s, e).store, a))
            && (IsAuthorized(Next(p, s, e).store, a) ==> IsAuthorized(s.store, a) || Authorizes(s, e, a))
  {
  }

  /** A lost link leaves no account authorized, none awaiting recovery and no
      application pending, and every account held as it was. */
  lemma LostLinkClearsAll(p: Policy, s: State)
    ensures var s' := Next(p, s, LinkLost);
            && !s'.appPending && s'.store.order == s.store.order && s'.store.accounts.Keys == s.store.accounts.Keys
            && forall a | a in s.store.accounts ::
                 s'.store.accounts[a] == Tracked(s.store.accounts[a].credentials, NoSession)
  {
  }

  /** So does leaving serve, which ends the loop as well: no event of the loop is
      enabled ever after. */
  lemma ShutdownClearsAll(p: Policy, s: State, es: seq<Event>)
    requires Legal(p, Next(p, s, Shutdown), es)
    ensures var s' := Next(p, s, Shutdown);
            && !s'.appPending && s'.store.order == s.store.order && s'.store.accounts.Keys == s.store.accounts.Keys
            && (forall a | a in s.store.accounts ::
                  s'.store.accounts[a] == Tracked(s.store.accounts[a].credentials, NoSession))
            && forall e | e in es :: !(e.Turn? || e.Wake? || e.AppAnswered? || e.Attempted? || e.Settled?)
  {
    EndedStaysEnded(p, Next(p, s, Shutdown), es);
  }

  lemma {:induction false} EndedStaysEnded(p: Policy, s: State, es: seq<Event>)
    requires Legal(p, s, es) && s.loop.Ended?
    ensures forall e | e in es :: !(e.Turn? || e.Wake? || e.AppAnswered? || e.Attempted? || e.Settled?)
    decreases |es|
  {
    if es != [] {
      assert es == [es[0]] + es[1..];
      EndedStaysEnded(p, Next(p, s, es[0]), es[1..]);
    }
  }

  /** A reconnection that fails to get the application back leaves every account
      held awaiting recovery, the application pending after one failure, and the
      loop with its event set. */
  lemma FailedAppFlagsAll(p: Policy, now: real, es: seq<Event>)
    requires Legal(p, Start(now), es) && Enabled(Exec(p, Start(now), es), AppRestored(false))
    ensures var s, s' := Exec(p, Start(now), es), Next(p, Exec(p, Start(now), es), AppRestored(false));
            && s'.store.order == s.store.order && s'.store.accounts.Keys == s.store.accounts.Keys
            && (forall a | a in s.store.accounts :: IsAwaiting(s'.store, a))
            && s'.appPending && s'.appAttempts == 1 && s'.signal in s'.raised && s'.restorer == Absent
  {
    var s := Exec(p, Start(now), es);
    RunWakes(p, Start(now), es);
    FlagAllIs(s.store, s.store.order);
  }

  // ---------------------------------------------------------------------
  // What the loop announces
  // ---------------------------------------------------------------------

  /** How the last attempt of the loop was answered. */
  ghost function LastAnswer(es: seq<Event>): Reply {
    if es == [] then NoAnswer
    else if es[|es| - 1].Attempted? then es[|es| - 1].reply
    else LastAnswer(es[..|es| - 1])
  }

  ghost predicate Knows(loop: Loop, answer: Reply) {
    && (loop.Settling? ==> answer == Answered)
    && (loop.Announcing? ==> answer == ApiError(AlreadyLoggedIn))
  }

  lemma StepKnows(p: Policy, s: State, e: Event, es: seq<Event>)
    requires Enabled(s, e) && Knows(s.loop, LastAnswer(es))
    ensures Knows(Next(p, s, e).loop, LastAnswer(es + [e]))
  {
    assert (es + [e])[..|es|] == es;
    match e
    case Attempted(_, _) =>
    case Settled(_) =>
    case _ => assert !Next(p, s, e).loop.Settling? || s.loop.Settling?;
  }

  lemma {:induction false} RunKnows(p: Policy, now: real, es: seq<Event>)
    requires Legal(p, Start(now), es)
    ensures Knows(Exec(p, Start(now), es).loop, LastAnswer(es))
    decreases |es|
  {
    if es != [] {
      var before, last := es[..|es| - 1], es[|es| - 1];
      Snoc(p, Start(now), es);
      RunKnows(p, now, before);
      StepKnows(p, Exec(p, Start(now), before), last, before);
      assert es == before + [last];
    }
  }

  /** In every run, the loop announces an account as ready with its subscriptions
      replayed exactly when the server has accepted it and its settling has gone
      well, and without a replay exactly when it was logged in already. */
  lemma AnnouncedAsAnswered(p: Policy, now: real, es: seq<Event>, e: Event, a: AccountId, replayed: bool)
    requires Legal(p, Start(now), es) && Enabled(Exec(p, Start(now), es), e)
    ensures var s, s' := Exec(p, Start(now), es), Next(p, Exec(p, Start(now), es), e);
            s'.log == s.log + [Ready(a, replayed)] <==>
              && e.Settled? && s.loop.queue[0].account == a
              && if replayed then LastAnswer(es) == Answered && e.ok else LastAnswer(es) == ApiError(AlreadyLoggedIn)
  {
    var s := Exec(p, Start(now), es);
    var log, log' := s.log, Next(p, s, e).log;
    RunKnows(p, now, es);
    if log' == log + [Ready(a, replayed)] { assert log'[|log|] == Ready(a, replayed); }
    StepFramed(p, s, e);
  }
}
