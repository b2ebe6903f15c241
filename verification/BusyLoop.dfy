/** The recovery loop comes to rest. While the clock stands still and no other
    task moves, it takes a bounded number of steps before it blocks, provided
    its waits are real ones; and if they are not, it need never block at all. */
module BusyLoop {
  import opened Collections
  import opened Sessions
  import opened Backoff
  import opened Replies
  import opened Recovery
  import RecoveryProofs

  predicate Sound(p: Policy) { p.minWait > 0.0 && p.maxWait > 0.0 }

  // ---------------------------------------------------------------------
  // Queues
  // ---------------------------------------------------------------------

  ghost predicate Proper(queue: seq<Due>) {
    && (forall i, j | 0 <= i < j < |queue| :: queue[i].account != queue[j].account)
    && (forall i | 0 <= i < |queue| :: queue[i].credentials.accountId == queue[i].account)
  }

  /** The accounts the loop still has to attend to in this turn. */
  function QueueOf(l: Loop): seq<Due> {
    match l
    case Attempting(q) => q
    case Settling(q) => q
    case Announcing(q) => q
    case _ => []
  }

  ghost predicate QueueInv(s: State) {
    && WellFormed(s.store)
    && Proper(QueueOf(s.loop))
    && (s.loop.Attempting? || s.loop.Settling? || s.loop.Announcing? ==> QueueOf(s.loop) != [])
    && RecoveryProofs.Listening(s)
  }

  lemma {:induction false} AwaitingProper(s: Store, order: seq<AccountId>)
    requires Distinct(order)
    requires forall a | a in s.accounts :: s.accounts[a].credentials.accountId == a
    ensures Proper(AwaitingIn(s, order))
    ensures forall d | d in AwaitingIn(s, order) :: d.account in order
  {
    if order != [] {
      var rest := AwaitingIn(s, order[1..]);
      assert order[0] !in order[1..];
      AwaitingProper(s, order[1..]);
      assert forall i | 0 <= i < |rest| :: rest[i] in rest;
    }
  }

  lemma {:induction false} DueProper(queue: seq<Due>, now: real)
    requires Proper(queue)
    ensures Proper(DueNow(queue, now))
    ensures forall d | d in DueNow(queue, now) :: d in queue
  {
    if queue != [] {
      assert queue == [queue[0]] + queue[1..];
      var rest := DueNow(queue[1..], now);
      DueProper(queue[1..], now);
      assert forall i | 0 <= i < |rest| :: rest[i] in rest;
      forall d | d in queue[1..] ensures d.account != queue[0].account {
        var i :| 0 <= i < |queue[1..]| && queue[1..][i] == d;
        assert queue[i + 1] == d;
      }
    }
  }

  lemma ServeQueueProper(s: State, f: EventId)
    requires QueueInv(s) && f == s.signal
    ensures QueueInv(ServeQueue(s, f))
  {
    AwaitingProper(s.store, s.store.order);
    DueProper(Awaiting(s.store), s.now);
  }

  lemma TailProper(queue: seq<Due>)
    requires Proper(queue) && queue != []
    ensures Proper(queue[1..])
    ensures forall d | d in queue[1..] :: d.account != queue[0].account
  {
  }

  lemma TurnKeepsQueue(s: State)
    requires QueueInv(s) && s.loop.Top?
    ensures QueueInv(TakeTurn(s))
  {
    var s1 := if s.signal in s.raised then s.(signal := s.nextEvent, nextEvent := s.nextEvent + 1) else s;
    ServeQueueProper(s1, s1.signal);
  }

  lemma AppKeepsQueue(p: Policy, s: State, ok: bool)
    requires QueueInv(s) && s.loop.RetryingApp?
    ensures QueueInv(AfterAppRetry(p, s, ok))
  {
    if ok { ServeQueueProper(s.(appPending := false, appAttempts := 0), s.loop.flagged); }
  }

  lemma AttemptKeepsQueue(p: Policy, s: State, outcome: Established)
    requires QueueInv(s) && s.loop.Attempting?
    ensures QueueInv(AfterAttempt(p, s, outcome))
  {
  }

  lemma SettlingKeepsQueue(p: Policy, s: State, ok: bool)
    requires QueueInv(s) && (s.loop.Settling? || s.loop.Announcing?)
    ensures QueueInv(AfterSettling(p, s, ok))
  {
  }

  lemma LoopKeepsQueue(p: Policy, s: State, e: Event)
    requires QueueInv(s) && Enabled(s, e) && RecoveryProofs.IsLoopStep(e)
    ensures QueueInv(Next(p, s, e))
  {
    match e
    case Turn => TurnKeepsQueue(s);
    case AppAnswered(ok) => AppKeepsQueue(p, s, ok);
    case Attempted(expired, reply) => AttemptKeepsQueue(p, s, Verdict(expired, reply));
    case Settled(ok) => SettlingKeepsQueue(p, s, ok);
    case Wake =>
  }

  lemma StepKeepsQueue(p: Policy, s: State, e: Event)
    requires QueueInv(s) && Enabled(s, e)
    ensures QueueInv(Next(p, s, e))
  {
    if RecoveryProofs.IsLoopStep(e) {
      LoopKeepsQueue(p, s, e);
    } else {
      match e
      case Probed(t, _) => ApplyWellFormed(s.store, Flag(s.checks[t].account));
      case LinkLost => ApplyWellFormed(s.store, InvalidateAll);
      case Shutdown => ApplyWellFormed(s.store, InvalidateAll);
      case AppRestored(_) => RecoveryProofs.FlagAllAdds(s.store, s.store.order);
      case AccountRestored(_, _) => ApplyWellFormed(s.store, Authorize(s.restorer.todo[0]));
      case Foreign(op) => ApplyWellFormed(s.store, op);
      case _ =>
    }
  }

  lemma {:induction false} RunKeepsQueue(p: Policy, s: State, es: seq<Event>)
    requires QueueInv(s) && Legal(p, s, es)
    ensures QueueInv(Exec(p, s, es))
    decreases es
  {
    if es != [] {
      StepKeepsQueue(p, s, es[0]);
      RunKeepsQueue(p, Next(p, s, es[0]), es[1..]);
    }
  }

  // ---------------------------------------------------------------------
  // The measure
  // ---------------------------------------------------------------------

  /** The accounts whose next attempt is due. */
  function DueSet(s: State): set<AccountId> {
    set a | a in s.store.accounts
         && IsAwaiting(s.store, a) && s.store.accounts[a].session.nextAttemptAt <= s.now
  }

  /** How many entries of a queue are no longer due. */
  function Stale(queue: seq<Due>, due: set<AccountId>): nat {
    if queue == [] then 0 else (if queue[0].account in due then 0 else 1) + Stale(queue[1..], due)
  }

  function AppDue(s: State): nat { if s.appPending && s.appNextAt <= s.now then 1 else 0 }

  function StaleIn(s: State): nat {
    match s.loop
    case RetryingApp(_) => 1 - AppDue(s)
    case Attempting(q) => Stale(q, DueSet(s))
    case Settling(q) => if q == [] then 0 else Stale(q[1..], DueSet(s))
    case Announcing(q) => if q == [] then 0 else Stale(q[1..], DueSet(s))
    case _ => 0
  }

  function Rank(s: State): nat {
    match s.loop
    case Top => 4
    case RetryingApp(_) => 3
    case Attempting(_) => 2
    case Settling(_) => 5
    case Announcing(_) => 5
    case Idle(_) => if Enabled(s, Wake) then 6 else 0
    case Waiting(_, _, _) => if Enabled(s, Wake) then 6 else 0
    case Ended => 0
  }

  function Signalled(s: State): nat { if s.signal in s.raised then 1 else 0 }

  function Measure(s: State): nat {
    8 * (Signalled(s) + AppDue(s) + StaleIn(s) + |DueSet(s)|) + Rank(s)
  }

  lemma {:induction false} StaleSame(queue: seq<Due>, due: set<AccountId>, due': set<AccountId>)
    requires forall d | d in queue :: d.account in due <==> d.account in due'
    ensures Stale(queue, due) == Stale(queue, due')
  {
    if queue != [] {
      assert queue[0] in queue && forall d | d in queue[1..] :: d in queue;
      StaleSame(queue[1..], due, due');
    }
  }

  lemma {:induction false} NoneStale(queue: seq<Due>, due: set<AccountId>)
    requires forall d | d in queue :: d.account in due
    ensures Stale(queue, due) == 0
  {
    if queue != [] {
      assert queue[0] in queue && forall d | d in queue[1..] :: d in queue;
      NoneStale(queue[1..], due);
    }
  }

  /** Whatever is done about one account, it is no longer due afterwards, and the
      others are as due as they were. */
  ghost predicate Attended(s: State, s': State, a: AccountId) {
    DueSet(s') == DueSet(s) - {a}
  }

  lemma AttendedShrinks(s: State, s': State, queue: seq<Due>)
    requires Proper(queue) && queue != [] && Attended(s, s', queue[0].account)
    ensures Stale(queue[1..], DueSet(s')) + |DueSet(s')| + 1 == Stale(queue, DueSet(s)) + |DueSet(s)|
  {
    TailProper(queue);
    StaleSame(queue[1..], DueSet(s), DueSet(s'));
    if queue[0].account !in DueSet(s) { assert DueSet(s') == DueSet(s); }
  }

  lemma DeferAttends(p: Policy, s: State, d: Due)
    requires Sound(p) && WellFormed(s.store)
    ensures Attended(s, Defer(p, s, d), d.account)
  {
    DelayPositive(p, d.attempts + 1);
  }

  lemma AuthorizeAttends(s: State, d: Due)
    requires d.credentials.accountId == d.account
    ensures Attended(s, s.(store := Apply(s.store, Authorize(d.credentials))), d.account)
  {
  }

  lemma ServeQueueDown(s: State, f: EventId)
    requires QueueInv(s) && f == s.signal && !s.appPending
    ensures var s' := ServeQueue(s, f);
            && StaleIn(s') == 0 && DueSet(s') == DueSet(s) && Signalled(s') == Signalled(s)
            && (Signalled(s) == 0 ==> Rank(s') <= 2) && Rank(s') <= 6
  {
    var queue := Awaiting(s.store);
    RecoveryProofs.AwaitingLists(s.store);
    RecoveryProofs.DueMeans(queue, s.now);
    if queue != [] { RecoveryProofs.SoonestIsLeast(queue); }
    NoneStale(DueNow(queue, s.now), DueSet(s));
  }

  lemma TurnDown(s: State)
    requires QueueInv(s) && s.loop.Top?
    ensures Measure(TakeTurn(s)) < Measure(s)
  {
    var s1 := if s.signal in s.raised then s.(signal := s.nextEvent, nextEvent := s.nextEvent + 1) else s;
    assert Signalled(s1) == 0 && DueSet(s1) == DueSet(s);
    if !s1.appPending { ServeQueueDown(s1, s1.signal); }
    else { assert DueSet(TakeTurn(s)) == DueSet(s); }
  }

  lemma AppAnsweredDown(p: Policy, s: State, ok: bool)
    requires QueueInv(s) && s.loop.RetryingApp? && Sound(p)
    ensures Measure(AfterAppRetry(p, s, ok)) < Measure(s)
  {
    DelayPositive(p, s.appAttempts + 1);
    var s1 := s.(appPending := false, appAttempts := 0);
    assert DueSet(s1) == DueSet(s);
    if ok { ServeQueueDown(s1, s.loop.flagged); }
    else { assert DueSet(AfterAppRetry(p, s, ok)) == DueSet(s); }
  }

  lemma AttemptedDown(p: Policy, s: State, outcome: Established)
    requires QueueInv(s) && s.loop.Attempting? && Sound(p)
    ensures Measure(AfterAttempt(p, s, outcome)) < Measure(s)
  {
    if outcome == Success || outcome == AccountRefused(true) { AcceptedDown(p, s, outcome); } else { RefusedDown(p, s, outcome); }
  }

  lemma AcceptedDown(p: Policy, s: State, outcome: Established)
    requires QueueInv(s) && s.loop.Attempting? && (outcome == Success || outcome == AccountRefused(true))
    ensures Measure(AfterAttempt(p, s, outcome)) < Measure(s)
  {
    var d := s.loop.queue[0];
    var s' := AfterAttempt(p, s, outcome);
    AuthorizeAttends(s, d);
    assert DueSet(s') == DueSet(s.(store := Apply(s.store, Authorize(d.credentials))));
    AttendedShrinks(s, s', s.loop.queue);
  }

  lemma RefusedDown(p: Policy, s: State, outcome: Established)
    requires QueueInv(s) && s.loop.Attempting? && Sound(p) && outcome != Success && outcome != AccountRefused(true)
    ensures Measure(AfterAttempt(p, s, outcome)) < Measure(s)
  {
    var d := s.loop.queue[0];
    var s' := AfterAttempt(p, s, outcome);
    DeferAttends(p, s, d);
    assert DueSet(s') == DueSet(Defer(p, s, d));
    AttendedShrinks(s, s', s.loop.queue);
  }

  lemma SettledDown(p: Policy, s: State, ok: bool)
    requires QueueInv(s) && (s.loop.Settling? || s.loop.Announcing?) && Sound(p)
    ensures Measure(AfterSettling(p, s, ok)) < Measure(s)
  {
    if ok || s.loop.Announcing? { SettledWellDown(p, s, ok); } else { SettledBadlyDown(p, s); }
  }

  lemma SettledWellDown(p: Policy, s: State, ok: bool)
    requires QueueInv(s) && (s.loop.Settling? || s.loop.Announcing?) && (ok || s.loop.Announcing?)
    ensures Measure(AfterSettling(p, s, ok)) < Measure(s)
  {
    var s' := AfterSettling(p, s, ok);
    TailProper(s.loop.queue);
    assert DueSet(s') == DueSet(s);
    StaleSame(s.loop.queue[1..], DueSet(s), DueSet(s'));
  }

  lemma SettledBadlyDown(p: Policy, s: State)
    requires QueueInv(s) && s.loop.Settling? && Sound(p)
    ensures Measure(AfterSettling(p, s, false)) < Measure(s)
  {
    var queue := s.loop.queue;
    var s' := AfterSettling(p, s, false);
    TailProper(queue);
    DeferAttends(p, s, queue[0]);
    assert DueSet(s') == DueSet(Defer(p, s, queue[0])) == DueSet(s) - {queue[0].account};
    StaleSame(queue[1..], DueSet(s), DueSet(s'));
  }

  lemma LoopStepDown(p: Policy, s: State, e: Event)
    requires QueueInv(s) && Enabled(s, e) && RecoveryProofs.IsLoopStep(e) && Sound(p)
    ensures Measure(Next(p, s, e)) < Measure(s)
  {
    match e
    case Turn => TurnDown(s);
    case Wake => assert DueSet(Next(p, s, e)) == DueSet(s);
    case AppAnswered(ok) => AppAnsweredDown(p, s, ok);
    case Attempted(expired, reply) => AttemptedDown(p, s, Verdict(expired, reply));
    case Settled(ok) => SettledDown(p, s, ok);
  }

  lemma {:induction false} ComesToRest(p: Policy, s: State, es: seq<Event>)
    requires QueueInv(s) && Legal(p, s, es) && Sound(p)
    requires forall e | e in es :: RecoveryProofs.IsLoopStep(e)
    ensures |es| <= Measure(s)
    decreases es
  {
    if es != [] {
      assert es[0] in es && forall e | e in es[1..] :: e in es;
      LoopStepDown(p, s, es[0]);
      LoopKeepsQueue(p, s, es[0]);
      ComesToRest(p, Next(p, s, es[0]), es[1..]);
    }
  }

  /** With positive waits the loop cannot spin: from every reachable state, the
      steps it can take before the clock or another task moves are bounded. */
  lemma NoBusyLoop(p: Policy, now: real, before: seq<Event>, es: seq<Event>)
    requires Sound(p) && Legal(p, Start(now), before)
    requires Legal(p, Exec(p, Start(now), before), es)
    requires forall e | e in es :: RecoveryProofs.IsLoopStep(e)
    ensures |es| <= Measure(Exec(p, Start(now), before))
  {
    RunKeepsQueue(p, Start(now), before);
    ComesToRest(p, Exec(p, Start(now), before), es);
  }

  /** And it stops only because it is blocked: otherwise it has a step to take. */
  lemma MovesUnlessBlocked(p: Policy, now: real, es: seq<Event>)
    requires Legal(p, Start(now), es)
    ensures var s := Exec(p, Start(now), es);
            s.loop.Ended? || s.loop.Idle? || s.loop.Waiting? || exists e :: RecoveryProofs.IsLoopStep(e) && Enabled(s, e)
  {
    RunKeepsQueue(p, Start(now), es);
    var s := Exec(p, Start(now), es);
    var e := match s.loop
      case Top => Turn
      case RetryingApp(_) => AppAnswered(true)
      case Attempting(_) => Attempted(true, NoAnswer)
      case Settling(_) => Settled(true)
      case Announcing(_) => Settled(true)
      case _ => Wake;
    assert e.Wake? || (RecoveryProofs.IsLoopStep(e) && Enabled(s, e));
  }

  // ---------------------------------------------------------------------
  // Without a positive wait
  // ---------------------------------------------------------------------

  function Spin(n: nat): seq<Event> {
    if n == 0 then [] else [Turn, Attempted(true, NoAnswer)] + Spin(n - 1)
  }

  /** At the top of its loop with one account to recover, and that one due. */
  ghost predicate OneDue(s: State, a: AccountId) {
    && s.loop.Top? && !s.appPending && s.signal !in s.raised
    && s.store.order == [a] && a in s.store.accounts
    && IsAwaiting(s.store, a) && s.store.accounts[a].session.nextAttemptAt <= s.now
  }

  lemma OneInQueue(s: State, a: AccountId, d: Due)
    requires s.store.order == [a] && RecoveryProofs.Lists(s.store, d) && d.account == a && d.nextAttemptAt <= s.now
    ensures DueNow(Awaiting(s.store), s.now) == [d]
  {
    assert [a][1..] == [] && AwaitingIn(s.store, []) == [];
    assert AwaitingIn(s.store, [a]) == [d] + [];
    assert [d][1..] == [];
  }

  lemma SpinOnce(p: Policy, s: State, a: AccountId)
    requires !Sound(p) && OneDue(s, a)
    ensures Enabled(s, Turn) && Enabled(Next(p, s, Turn), Attempted(true, NoAnswer))
    ensures var s' := Next(p, Next(p, s, Turn), Attempted(true, NoAnswer)); OneDue(s', a) && s'.now == s.now
  {
    var t := s.store.accounts[a];
    var d := Due(a, t.credentials, t.session.attempts, t.session.nextAttemptAt);
    OneInQueue(s, a, d);
    assert Next(p, s, Turn).loop == Attempting([d]);
    DelayPositive(p, d.attempts + 1);
  }

  lemma {:induction false} SpinRuns(p: Policy, s: State, a: AccountId, n: nat)
    requires !Sound(p) && OneDue(s, a)
    ensures Legal(p, s, Spin(n)) && Exec(p, s, Spin(n)).now == s.now
    ensures forall e | e in Spin(n) :: RecoveryProofs.IsLoopStep(e)
    ensures |Spin(n)| == 2 * n
    decreases n
  {
    if n > 0 {
      SpinOnce(p, s, a);
      var s1 := Next(p, s, Turn);
      var s2 := Next(p, s1, Attempted(true, NoAnswer));
      SpinRuns(p, s2, a, n - 1);
      assert Spin(n)[1..] == [Attempted(true, NoAnswer)] + Spin(n - 1);
      assert Spin(n)[1..][1..] == Spin(n - 1);
      assert Legal(p, s1, Spin(n)[1..]);
    }
  }

  /** The other half. With a wait that is not positive, a single account whose
      attempts fail at once, as they do with an expired token, keeps the loop
      going round for as long as one cares to watch, without the clock moving. */
  lemma BusyLoopWithoutWait(p: Policy, c: Credentials, n: nat)
    requires !Sound(p)
    ensures var before := RecoveryProofs.Dropping(c) + [Turn, Attempted(true, NoAnswer)];
            && Legal(p, Start(0.0), before)
            && Legal(p, Exec(p, Start(0.0), before), Spin(n))
            && |Spin(n)| == 2 * n && forall e | e in Spin(n) :: RecoveryProofs.IsLoopStep(e)
  {
    RecoveryProofs.JustDropped(p, c);
    var s := Exec(p, Start(0.0), RecoveryProofs.Dropping(c));
    FirstTurn(p, s, c.accountId);
    var s1 := Next(p, s, Turn);
    var s2 := Next(p, s1, Attempted(true, NoAnswer));
    RecoveryProofs.Prepend(p, s1, Attempted(true, NoAnswer), []);
    RecoveryProofs.Prepend(p, s, Turn, [Attempted(true, NoAnswer)]);
    RecoveryProofs.Join(p, Start(0.0), RecoveryProofs.Dropping(c), [Turn, Attempted(true, NoAnswer)]);
    SpinRuns(p, s2, c.accountId, n);
  }

  /** The turn that takes the first flag, and the failure that follows. */
  lemma FirstTurn(p: Policy, s: State, a: AccountId)
    requires !Sound(p) && s.loop.Top? && !s.appPending && s.nextEvent !in s.raised
    requires s.store.order == [a] && a in s.store.accounts && s.store.accounts[a].session == JUST_DROPPED
    requires s.now == 0.0
    ensures Enabled(s, Turn) && Enabled(Next(p, s, Turn), Attempted(true, NoAnswer))
    ensures OneDue(Next(p, Next(p, s, Turn), Attempted(true, NoAnswer)), a)
  {
    var t := s.store.accounts[a];
    var d := Due(a, t.credentials, 0, 0.0);
    OneInQueue(s, a, d);
    assert Next(p, s, Turn).loop == Attempting([d]);
    DelayPositive(p, 1);
  }
}
