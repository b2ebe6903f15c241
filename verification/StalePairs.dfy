/** A pair of tokens that has been replaced, and the recovery that still carries
    the old one: its queue, and the snapshot of a reconnection, are taken before
    the server answers, and whatever they hold is written back with the answer. */
module StalePairs {
  import opened Sessions
  import opened Backoff
  import opened Replies
  import opened Recovery
  import opened RecoveryProofs

  /** Other credentials for the same account. */
  predicate Other(x: Credentials, c: Credentials) { x.accountId == c.accountId && x != c }

  /** What the recovery loop has yet to ask about in this pass. */
  function QueueLeft(loop: Loop): seq<Due> {
    match loop
    case Attempting(queue) => queue
    case Settling(queue) => if queue == [] then [] else queue[1..]
    case Announcing(queue) => if queue == [] then [] else queue[1..]
    case _ => []
  }

  /** And what a reconnection has. */
  function TodoLeft(r: Restorer): seq<Credentials> {
    match r
    case Restoring(todo, settling, _, _, _) => if settling && todo != [] then todo[1..] else todo
    case _ => []
  }

  ghost predicate StaleQueue(s: State, c: Credentials) {
    exists i :: 0 <= i < |QueueLeft(s.loop)| && Other(QueueLeft(s.loop)[i].credentials, c)
  }

  ghost predicate StaleTodo(s: State, c: Credentials) {
    exists i :: 0 <= i < |TodoLeft(s.restorer)| && Other(TodoLeft(s.restorer)[i], c)
  }

  /** Some pass under way still carries other credentials for the account. */
  ghost predicate Stale(s: State, c: Credentials) { StaleQueue(s, c) || StaleTodo(s, c) }

  /** No other task gives the account different credentials, or removes it. */
  predicate Spares(e: Event, c: Credentials) {
    match e
    case Foreign(Authorize(x)) => !Other(x, c)
    case Foreign(ReplaceCredentials(x)) => !Other(x, c)
    case Foreign(Remove(a)) => a != c.accountId
    case _ => true
  }

  /** The server accepts other credentials for the account, or finds it authorized
      already when they are presented. */
  predicate AcceptsStale(s: State, e: Event, c: Credentials)
    requires Enabled(s, e)
  {
    match e
    case Attempted(expired, reply) =>
      !expired && (reply == Answered || reply == ApiError(AlreadyLoggedIn)) && Other(s.loop.queue[0].credentials, c)
    case AccountRestored(expired, reply) => !expired && reply == Answered && Other(s.restorer.todo[0], c)
    case _ => false
  }

  // ---------------------------------------------------------------------
  // One step
  // ---------------------------------------------------------------------

  ghost predicate SameCredentials(s: Store, s': Store) {
    s'.accounts.Keys == s.accounts.Keys
    && forall a | a in s.accounts :: s'.accounts[a].credentials == s.accounts[a].credentials
  }

  /** What a step may write over the credentials of an account. */
  lemma StepKeeps(p: Policy, s: State, e: Event)
    requires Enabled(s, e) && !e.Foreign? && !e.AccountRestored?
    requires e.Attempted? ==> e.expired || (e.reply != Answered && e.reply != ApiError(AlreadyLoggedIn))
    ensures SameCredentials(s.store, Next(p, s, e).store)
  {
    if e.AppRestored? && !e.ok { FlagAllIs(s.store, s.store.order); }
  }

  lemma StepHeld(p: Policy, s: State, e: Event, c: Credentials)
    requires Enabled(s, e) && Spares(e, c) && Holds(s.store, c)
    ensures Holds(Next(p, s, e).store, c) <==> !AcceptsStale(s, e, c)
  {
    match e
    case Foreign(op) =>
    case AccountRestored(_, _) =>
    case Attempted(expired, reply) =>
      if expired || (reply != Answered && reply != ApiError(AlreadyLoggedIn)) { StepKeeps(p, s, e); }
    case _ => StepKeeps(p, s, e);
  }

  lemma ListsNothingStale(s: Store, c: Credentials)
    requires WellFormed(s) && Holds(s, c)
    ensures forall i | 0 <= i < |AllCredentials(s)| :: !Other(AllCredentials(s)[i], c)
    ensures forall i | 0 <= i < |Awaiting(s)| :: !Other(Awaiting(s)[i].credentials, c)
  {
    CredentialsFrom(s, s.order, c);
    AwaitingFrom(s, s.order, c);
  }

  lemma {:induction false} CredentialsFrom(s: Store, order: seq<AccountId>, c: Credentials)
    requires WellFormed(s) && Holds(s, c)
    ensures forall i | 0 <= i < |CredentialsIn(s, order)| :: !Other(CredentialsIn(s, order)[i], c)
    decreases |order|
  {
    if order != [] {
      var head := if order[0] in s.accounts then [s.accounts[order[0]].credentials] else [];
      CredentialsFrom(s, order[1..], c);
      if order[0] in s.accounts {
        var x := s.accounts[order[0]].credentials;
        assert x.accountId == order[0] && !Other(x, c);
      }
      assert CredentialsIn(s, order) == head + CredentialsIn(s, order[1..]);
    }
  }

  lemma {:induction false} AwaitingFrom(s: Store, order: seq<AccountId>, c: Credentials)
    requires WellFormed(s) && Holds(s, c)
    ensures forall i | 0 <= i < |AwaitingIn(s, order)| :: !Other(AwaitingIn(s, order)[i].credentials, c)
    decreases |order|
  {
    if order != [] { AwaitingFrom(s, order[1..], c); }
  }

  lemma {:induction false} DueFrom(queue: seq<Due>, now: real, c: Credentials)
    requires forall i | 0 <= i < |queue| :: !Other(queue[i].credentials, c)
    ensures forall i | 0 <= i < |DueNow(queue, now)| :: !Other(DueNow(queue, now)[i].credentials, c)
    decreases |queue|
  {
    if queue != [] {
      assert forall i | 0 <= i < |queue| - 1 :: queue[1..][i] == queue[i + 1];
      DueFrom(queue[1..], now, c);
    }
  }

  lemma ServesNothingStale(s: State, flagged: EventId, c: Credentials)
    requires WellFormed(s.store) && Holds(s.store, c)
    ensures !StaleQueue(ServeQueue(s, flagged), c)
  {
    ListsNothingStale(s.store, c);
    DueFrom(Awaiting(s.store), s.now, c);
  }

  /** A pass begun while the pair is held carries nothing else for its account. */
  lemma StaysFresh(p: Policy, s: State, e: Event, c: Credentials)
    requires Enabled(s, e) && WellFormed(s.store) && Holds(s.store, c) && !Stale(s, c)
    ensures !Stale(Next(p, s, e), c)
  {
    QueueStaysFresh(p, s, e, c);
    TodoStaysFresh(p, s, e, c);
  }

  lemma QueueStaysFresh(p: Policy, s: State, e: Event, c: Credentials)
    requires Enabled(s, e) && WellFormed(s.store) && Holds(s.store, c) && !StaleQueue(s, c)
    ensures !StaleQueue(Next(p, s, e), c)
  {
    var left, left' := QueueLeft(s.loop), QueueLeft(Next(p, s, e).loop);
    match e
    case Turn =>
      var s1 := if s.signal in s.raised then s.(signal := s.nextEvent, nextEvent := s.nextEvent + 1) else s;
      ServesNothingStale(s1, s1.signal, c);
    case AppAnswered(ok) =>
      if ok { ServesNothingStale(s.(appPending := false, appAttempts := 0), s.loop.flagged, c); }
    case Attempted(_, _) =>
      assert forall i | 0 <= i < |left'| :: left'[i] == left[i + 1];
    case Settled(_) => assert left' == left;
    case _ =>
  }

  lemma TodoStaysFresh(p: Policy, s: State, e: Event, c: Credentials)
    requires Enabled(s, e) && WellFormed(s.store) && Holds(s.store, c) && !StaleTodo(s, c)
    ensures !StaleTodo(Next(p, s, e), c)
  {
    var left, left' := TodoLeft(s.restorer), TodoLeft(Next(p, s, e).restorer);
    match e
    case AppRestored(ok) => if ok { ListsNothingStale(s.store, c); }
    case AccountRestored(_, _) => assert forall i | 0 <= i < |left'| :: left'[i] == left[i + 1];
    case AccountSettled(_) => assert left' == left || left' == [];
    case _ => assert left' == left || left' == [];
  }

  // ---------------------------------------------------------------------
  // Whole runs
  // ---------------------------------------------------------------------

  ghost predicate HeldThroughout(p: Policy, s: State, es: seq<Event>, c: Credentials)
    requires Legal(p, s, es)
    decreases |es|
  {
    Holds(s.store, c) && (es != [] ==> HeldThroughout(p, Next(p, s, es[0]), es[1..], c))
  }

  ghost predicate NeverAcceptsStale(p: Policy, s: State, es: seq<Event>, c: Credentials)
    requires Legal(p, s, es)
    decreases |es|
  {
    es != [] ==> !AcceptsStale(s, es[0], c) && NeverAcceptsStale(p, Next(p, s, es[0]), es[1..], c)
  }

  /** In any run in which no other task touches the account's credentials, a pair
      once held stays held exactly as long as the server never accepts, nor finds
      authorized already, other credentials that a pass still carried for it. */
  lemma {:induction false} PairIsKeptIff(p: Policy, s: State, es: seq<Event>, c: Credentials)
    requires Legal(p, s, es) && Holds(s.store, c) && forall e | e in es :: Spares(e, c)
    ensures HeldThroughout(p, s, es, c) <==> NeverAcceptsStale(p, s, es, c)
    decreases |es|
  {
    if es != [] {
      assert es[0] in es && forall e | e in es[1..] :: e in es;
      StepHeld(p, s, es[0], c);
      if Holds(Next(p, s, es[0]).store, c) { PairIsKeptIff(p, Next(p, s, es[0]), es[1..], c); }
    }
  }

  lemma {:induction false} FreshIsKept(p: Policy, s: State, es: seq<Event>, c: Credentials)
    requires Legal(p, s, es) && Holds(s.store, c) && forall e | e in es :: Spares(e, c)
    requires WakeInv(s) && !Stale(s, c)
    ensures Holds(Exec(p, s, es).store, c)
    decreases |es|
  {
    if es != [] {
      assert es[0] in es && forall e | e in es[1..] :: e in es;
      StepHeld(p, s, es[0], c);
      StepWakes(p, s, es[0]);
      StaysFresh(p, s, es[0], c);
      assert !AcceptsStale(s, es[0], c) by { AcceptedWasStale(s, es[0], c); }
      FreshIsKept(p, Next(p, s, es[0]), es[1..], c);
    }
  }

  lemma AcceptedWasStale(s: State, e: Event, c: Credentials)
    requires Enabled(s, e)
    ensures AcceptsStale(s, e, c) ==> Stale(s, c)
  {
    if AcceptsStale(s, e, c) {
      match e
      case Attempted(_, _) => assert QueueLeft(s.loop)[0] == s.loop.queue[0];
      case AccountRestored(_, _) => assert TodoLeft(s.restorer)[0] == s.restorer.todo[0];
    }
  }

  /** A run in which no other task touches the account's credentials, and yet it
      ends with others held, or none. */
  ghost predicate Undoes(p: Policy, s: State, es: seq<Event>, c: Credentials) {
    Legal(p, s, es) && (forall e | e in es :: Spares(e, c)) && !Holds(Exec(p, s, es).store, c)
  }

  /** Whatever follows, the pair is held as long as no other task touches the account. */
  ghost predicate Safe(p: Policy, s: State, c: Credentials) { forall es :: !Undoes(p, s, es, c) }

  lemma UndoesAfter(p: Policy, s: State, e: Event, es: seq<Event>, c: Credentials)
    requires Enabled(s, e) && Spares(e, c) && Undoes(p, Next(p, s, e), es, c)
    ensures Undoes(p, s, [e] + es, c)
  {
    assert ([e] + es)[1..] == es;
  }

  lemma {:induction false} QueueUndoes(p: Policy, s: State, i: nat, c: Credentials) returns (es: seq<Event>)
    requires s.loop.Attempting? && i < |s.loop.queue| && Other(s.loop.queue[i].credentials, c)
    ensures Undoes(p, s, es, c)
    decreases i
  {
    if i == 0 {
      var s' := Next(p, s, Attempted(false, Answered));
      assert Undoes(p, s', [], c);
      es := [Attempted(false, Answered)] + [];
      UndoesAfter(p, s, Attempted(false, Answered), [], c);
    } else {
      var s' := Next(p, s, Attempted(true, NoAnswer));
      assert s'.loop == Attempting(s.loop.queue[1..]);
      var rest := QueueUndoes(p, s', i - 1, c);
      UndoesAfter(p, s, Attempted(true, NoAnswer), rest, c);
      es := [Attempted(true, NoAnswer)] + rest;
    }
  }

  lemma {:induction false} TodoUndoes(p: Policy, s: State, i: nat, c: Credentials) returns (es: seq<Event>)
    requires s.restorer.Restoring? && !s.restorer.settling
    requires i < |s.restorer.todo| && Other(s.restorer.todo[i], c)
    ensures Undoes(p, s, es, c)
    decreases i
  {
    if i == 0 {
      var s' := Next(p, s, AccountRestored(false, Answered));
      assert Undoes(p, s', [], c);
      es := [AccountRestored(false, Answered)] + [];
      UndoesAfter(p, s, AccountRestored(false, Answered), [], c);
    } else {
      var s' := Next(p, s, AccountRestored(true, NoAnswer));
      assert s'.restorer.todo == s.restorer.todo[1..] && !s'.restorer.settling;
      var rest := TodoUndoes(p, s', i - 1, c);
      UndoesAfter(p, s, AccountRestored(true, NoAnswer), rest, c);
      es := [AccountRestored(true, NoAnswer)] + rest;
    }
  }

  lemma StaleUndoes(p: Policy, s: State, c: Credentials) returns (es: seq<Event>)
    requires Stale(s, c)
    ensures Undoes(p, s, es, c)
  {
    if StaleQueue(s, c) {
      var i :| 0 <= i < |QueueLeft(s.loop)| && Other(QueueLeft(s.loop)[i].credentials, c);
      if s.loop.Attempting? {
        es := QueueUndoes(p, s, i, c);
      } else {
        var s' := Next(p, s, Settled(true));
        assert s'.loop == Attempting(s.loop.queue[1..]);
        var rest := QueueUndoes(p, s', i, c);
        UndoesAfter(p, s, Settled(true), rest, c);
        es := [Settled(true)] + rest;
      }
    } else {
      var i :| 0 <= i < |TodoLeft(s.restorer)| && Other(TodoLeft(s.restorer)[i], c);
      if !s.restorer.settling {
        es := TodoUndoes(p, s, i, c);
      } else {
        var s' := Next(p, s, AccountSettled(true));
        assert s'.restorer.todo == s.restorer.todo[1..] && !s'.restorer.settling;
        var rest := TodoUndoes(p, s', i, c);
        UndoesAfter(p, s, AccountSettled(true), rest, c);
        es := [AccountSettled(true)] + rest;
      }
    }
  }

  /** From any reachable state, a pair just stored is safe from the recovery in
      every run that follows exactly if no pass under way carries other
      credentials for its account. */
  lemma PairIsSafeIff(p: Policy, now: real, before: seq<Event>, c: Credentials)
    requires Legal(p, Start(now), before) && Holds(Exec(p, Start(now), before).store, c)
    ensures var s := Exec(p, Start(now), before);
            Safe(p, s, c) <==> !Stale(s, c)
  {
    RunWakes(p, Start(now), before);
    SafeIff(p, Exec(p, Start(now), before), c);
  }

  lemma SafeIff(p: Policy, s: State, c: Credentials)
    requires WakeInv(s) && Holds(s.store, c)
    ensures Safe(p, s, c) <==> !Stale(s, c)
  {
    if Stale(s, c) {
      var es := StaleUndoes(p, s, c);
    } else {
      forall es ensures !Undoes(p, s, es, c) {
        if Legal(p, s, es) && (forall e | e in es :: Spares(e, c)) { FreshIsKept(p, s, es, c); }
      }
    }
  }

  /** It does happen. A recovery asks for a dropped account; before the server
      answers, the refresher replaces its pair and has the new one accepted; then
      the answer comes, and the store is left with the pair the server has
      invalidated, marked as authorized. */
  lemma DeadPairReturns(p: Policy, stale: Credentials, c: Credentials, reply: Reply)
    requires Other(stale, c) && reply in {Answered, ApiError(AlreadyLoggedIn)}
    ensures var es := Dropping(stale) + [Turn] + [Foreign(ReplaceCredentials(c)), Foreign(Authorize(c)), Attempted(false, reply)];
            && Legal(p, Start(0.0), es)
            && Holds(Exec(p, Start(0.0), es).store, stale) && IsAuthorized(Exec(p, Start(0.0), es).store, c.accountId)
  {
    TakenUp(p, stale);
    WrittenBack(p, stale, c, reply);
    Join(p, Start(0.0), Dropping(stale) + [Turn], [Foreign(ReplaceCredentials(c)), Foreign(Authorize(c)), Attempted(false, reply)]);
  }

  /** The recovery has asked the server for a dropped account. */
  ghost predicate Asking(s: State, c: Credentials) {
    && s.store == Store([c.accountId], map[c.accountId := Tracked(c, JUST_DROPPED)])
    && s.loop == Attempting([Due(c.accountId, c, 0, 0.0)])
  }

  lemma TakenUp(p: Policy, c: Credentials)
    ensures Legal(p, Start(0.0), Dropping(c) + [Turn]) && Asking(Exec(p, Start(0.0), Dropping(c) + [Turn]), c)
  {
    JustDropped(p, c);
    var s := Exec(p, Start(0.0), Dropping(c));
    var a := c.accountId;
    assert AwaitingIn(s.store, [a]) == [Due(a, c, 0, 0.0)] + AwaitingIn(s.store, []);
    assert DueNow([Due(a, c, 0, 0.0)], 0.0) == [Due(a, c, 0, 0.0)];
    assert Asking(Next(p, s, Turn), c);
    Prepend(p, s, Turn, []);
    Join(p, Start(0.0), Dropping(c), [Turn]);
  }

  lemma WrittenBack(p: Policy, stale: Credentials, c: Credentials, reply: Reply)
    requires Other(stale, c) && reply in {Answered, ApiError(AlreadyLoggedIn)}
    ensures var es := [Foreign(ReplaceCredentials(c)), Foreign(Authorize(c)), Attempted(false, reply)];
            forall s | Asking(s, stale) ::
              && Legal(p, s, es)
              && Holds(Exec(p, s, es).store, stale) && IsAuthorized(Exec(p, s, es).store, c.accountId)
  {
    forall s | Asking(s, stale)
      ensures var es := [Foreign(ReplaceCredentials(c)), Foreign(Authorize(c)), Attempted(false, reply)];
              && Legal(p, s, es)
              && Holds(Exec(p, s, es).store, stale) && IsAuthorized(Exec(p, s, es).store, c.accountId)
    {
      var s1 := Next(p, s, Foreign(ReplaceCredentials(c)));
      var s2 := Next(p, s1, Foreign(Authorize(c)));
      Prepend(p, s2, Attempted(false, reply), []);
      Prepend(p, s1, Foreign(Authorize(c)), [Attempted(false, reply)]);
      Prepend(p, s, Foreign(ReplaceCredentials(c)), [Foreign(Authorize(c)), Attempted(false, reply)]);
    }
  }
}
