/** Session recovery: the background loop that re-authenticates dropped accounts,
    the checks of reported disconnects, and the re-authentication after a
    reconnection, all working on one store while other tasks write to it too.

    Each stretch between two suspension points is one step. Clock readings are
    real numbers; the clock only moves between steps. */
module Recovery {
  import opened Sessions
  import opened Backoff
  import opened Replies

  type TaskId = nat
  type EventId = nat

  /** Where the recovery loop is suspended. `flagged` is the event it took at the
      top of the turn. */
  datatype Loop =
    | Top
    | Idle(flagged: EventId)
    | Waiting(flagged: EventId, began: real, wakeAt: real)
    | RetryingApp(flagged: EventId)
    | Attempting(queue: seq<Due>)      // awaiting the server's answer for the first of the queue
    | Settling(queue: seq<Due>)        // authorized; restoring and announcing the first of the queue
    | Announcing(queue: seq<Due>)      // found authorized already; announcing it
    | Ended

  /** A check of a reported disconnect. */
  datatype Check = Probing(account: AccountId) | Reporting(account: AccountId)

  /** The re-authentication after a reconnection. */
  datatype Restorer =
    | Absent
    | RestoringApp
    | Restoring(todo: seq<Credentials>, settling: bool,
                restored: seq<AccountId>, failed: seq<AccountId>, snapshot: seq<AccountId>)

  datatype Entry =
    | ProbeBegun(account: AccountId, authorized: bool)
    | ProbeEnded(account: AccountId, reply: Reply)
    | Disconnected(account: AccountId)
    | Ready(account: AccountId, replayed: bool)   // announced by the loop
    | Reconnected(appRestored: bool, restored: seq<AccountId>, failed: seq<AccountId>, snapshot: seq<AccountId>)

  datatype State = State(
    store: Store,
    signal: EventId,
    nextEvent: EventId,
    raised: set<EventId>,           // events that have been set
    verifying: set<AccountId>,
    appPending: bool,
    appAttempts: nat,
    appNextAt: real,
    now: real,
    loop: Loop,
    checks: map<TaskId, Check>,
    restorer: Restorer,
    log: seq<Entry>)

  datatype Event =
    | Turn                                      // the loop runs from its top
    | Wake                                      // its wait is over
    | AppAnswered(ok: bool)
    | Attempted(expired: bool, reply: Reply)    // an attempt to establish a session
    | Settled(ok: bool)
    | CheckDisconnect(task: TaskId, account: AccountId)
    | Probed(task: TaskId, reply: Reply)
    | Emitted(task: TaskId)
    | CheckCancelled(task: TaskId)
    | LinkLost
    | LinkRestored
    | AppRestored(ok: bool)
    | AccountRestored(expired: bool, reply: Reply)
    | AccountSettled(ok: bool)
    | Foreign(op: Op)                           // the client, or the token refresher
    | Tick(elapsed: real)
    | Shutdown

  function Start(now: real): State {
    State(EMPTY, 0, 1, {}, {}, false, 0, 0.0, now, Top, map[], Absent, [])
  }

  // ---------------------------------------------------------------------
  // The recovery loop
  // ---------------------------------------------------------------------

  function DueNow(queue: seq<Due>, now: real): seq<Due> {
    if queue == [] then []
    else (if queue[0].nextAttemptAt <= now then [queue[0]] else []) + DueNow(queue[1..], now)
  }

  function Soonest(queue: seq<Due>): real
    requires queue != []
  {
    if |queue| == 1 || queue[0].nextAttemptAt <= Soonest(queue[1..]) then queue[0].nextAttemptAt else Soonest(queue[1..])
  }

  /** Start on the accounts that are due, or wait for what comes first. */
  function ServeQueue(s: State, flagged: EventId): State {
    var queue := Awaiting(s.store);
    if queue == [] then s.(loop := Idle(flagged))
    else
      var due := DueNow(queue, s.now);
      if due == [] then s.(loop := Waiting(flagged, s.now, Soonest(queue)))
      else s.(loop := Attempting(due))
  }

  /** From the top: take a fresh event if the last one was set, settle the
      application first, then the accounts. */
  function TakeTurn(s: State): State {
    var s1 := if s.signal in s.raised then s.(signal := s.nextEvent, nextEvent := s.nextEvent + 1) else s;
    if s1.appPending then
      if s1.appNextAt > s1.now then s1.(loop := Waiting(s1.signal, s1.now, s1.appNextAt))
      else s1.(loop := RetryingApp(s1.signal))
    else ServeQueue(s1, s1.signal)
  }

  function DeferApp(p: Policy, s: State): State {
    s.(appAttempts := s.appAttempts + 1, appNextAt := s.now + Delay(p, s.appAttempts + 1))
  }

  function AfterAppRetry(p: Policy, s: State, ok: bool): State
    requires s.loop.RetryingApp?
  {
    if ok then ServeQueue(s.(appPending := false, appAttempts := 0), s.loop.flagged)
    else DeferApp(p, s).(loop := Top)
  }

  function Defer(p: Policy, s: State, d: Due): State {
    s.(store := Apply(s.store, Reschedule(d.account, d.attempts + 1, s.now + Delay(p, d.attempts + 1))))
  }

  /** On to the rest of the accounts that were due. */
  function Proceed(s: State, queue: seq<Due>): State {
    s.(loop := if queue == [] then Top else Attempting(queue))
  }

  function AfterAttempt(p: Policy, s: State, outcome: Established): State
    requires s.loop.Attempting? && s.loop.queue != []
  {
    var d := s.loop.queue[0];
    match outcome
    case Success => s.(store := Apply(s.store, Authorize(d.credentials)), loop := Settling(s.loop.queue))
    case AccountRefused(true) => s.(store := Apply(s.store, Authorize(d.credentials)), loop := Announcing(s.loop.queue))
    case _ => Proceed(Defer(p, s, d), s.loop.queue[1..])
  }

  /** Whatever goes wrong once the account is authorized is taken for a failed
      attempt; announcing an account found authorized cannot fail. */
  function AfterSettling(p: Policy, s: State, ok: bool): State
    requires (s.loop.Settling? || s.loop.Announcing?) && s.loop.queue != []
  {
    var d := s.loop.queue[0];
    var s1 := if ok || s.loop.Announcing? then s.(log := s.log + [Ready(d.account, s.loop.Settling?)]) else Defer(p, s, d);
    Proceed(s1, s.loop.queue[1..])
  }

  // ---------------------------------------------------------------------
  // Reported disconnects
  // ---------------------------------------------------------------------

  /** A report is checked only if the account is held, authorized and not being
      checked already. */
  function BeginCheck(s: State, t: TaskId, a: AccountId): State {
    if !IsAuthorized(s.store, a) || a in s.verifying then s
    else s.(verifying := s.verifying + {a},
            checks := s.checks[t := Probing(a)],
            log := s.log + [ProbeBegun(a, IsAuthorized(s.store, a))])
  }

  function EndCheck(s: State, t: TaskId): State
    requires t in s.checks
  {
    s.(verifying := s.verifying - {s.checks[t].account}, checks := s.checks - {t})
  }

  function AfterProbe(s: State, t: TaskId, reply: Reply): State
    requires t in s.checks
  {
    var a := s.checks[t].account;
    var told := s.(log := s.log + [ProbeEnded(a, reply)]);
    if ProbeOf(reply) != Dead then EndCheck(told, t)
    else told.(store := Apply(s.store, Flag(a)),
               raised := s.raised + {s.signal},
               checks := s.checks[t := Reporting(a)],
               log := told.log + [Disconnected(a)])
  }

  // ---------------------------------------------------------------------
  // The link
  // ---------------------------------------------------------------------

  function FlagAll(s: Store, order: seq<AccountId>): Store
    decreases |order|
  {
    if order == [] then s else FlagAll(Apply(s, Flag(order[0])), order[1..])
  }

  /** The loop takes over the application, and every account becomes its business. */
  function ArmAppRecovery(p: Policy, s: State): State {
    var armed := DeferApp(p, s.(appPending := true, appAttempts := 0));
    armed.(store := FlagAll(s.store, s.store.order), raised := s.raised + {s.signal})
  }

  function Ids(cs: seq<Credentials>): seq<AccountId> {
    if cs == [] then [] else [cs[0].accountId] + Ids(cs[1..])
  }

  function Finish(s: State, restored: seq<AccountId>, failed: seq<AccountId>, snapshot: seq<AccountId>): State {
    s.(restorer := Absent, log := s.log + [Reconnected(true, restored, failed, snapshot)])
  }

  function AfterAppRestored(p: Policy, s: State, ok: bool): State {
    if !ok then
      ArmAppRecovery(p, s).(restorer := Absent, log := s.log + [Reconnected(false, [], [], [])])
    else
      var todo := AllCredentials(s.store);
      if todo == [] then Finish(s, [], [], [])
      else s.(restorer := Restoring(todo, false, [], [], Ids(todo)))
  }

  function NextAccount(s: State, r: Restorer, ok: bool): State
    requires r.Restoring? && r.todo != []
  {
    var a := r.todo[0].accountId;
    var restored := if ok then r.restored + [a] else r.restored;
    var failed := if ok then r.failed else r.failed + [a];
    if |r.todo| == 1 then Finish(s, restored, failed, r.snapshot)
    else s.(restorer := Restoring(r.todo[1..], false, restored, failed, r.snapshot))
  }

  // ---------------------------------------------------------------------
  // Steps and runs
  // ---------------------------------------------------------------------

  /** What other tasks do to the store: they never flag or reschedule. */
  predicate IsForeign(op: Op) { op.Authorize? || op.ReplaceCredentials? || op.Remove? }

  predicate Enabled(s: State, e: Event) {
    match e
    case Turn => s.loop.Top?
    case Wake =>
      || (s.loop.Idle? && s.loop.flagged in s.raised)
      || (s.loop.Waiting? && (s.loop.flagged in s.raised || s.loop.wakeAt <= s.now))
    case AppAnswered(_) => s.loop.RetryingApp?
    case Attempted(_, _) => s.loop.Attempting? && s.loop.queue != []
    case Settled(_) => (s.loop.Settling? || s.loop.Announcing?) && s.loop.queue != []
    case CheckDisconnect(t, _) => t !in s.checks
    case Probed(t, _) => t in s.checks && s.checks[t].Probing?
    case Emitted(t) => t in s.checks && s.checks[t].Reporting?
    case CheckCancelled(t) => t in s.checks
    case LinkLost => true
    case LinkRestored => s.restorer.Absent?
    case AppRestored(_) => s.restorer.RestoringApp?
    case AccountRestored(_, _) => s.restorer.Restoring? && !s.restorer.settling && s.restorer.todo != []
    case AccountSettled(_) => s.restorer.Restoring? && s.restorer.settling && s.restorer.todo != []
    case Foreign(op) => IsForeign(op)
    case Tick(d) => d >= 0.0
    case Shutdown => true
  }

  function Next(p: Policy, s: State, e: Event): State
    requires Enabled(s, e)
  {
    match e
    case Turn => TakeTurn(s)
    case Wake => s.(loop := Top)
    case AppAnswered(ok) => AfterAppRetry(p, s, ok)
    case Attempted(expired, reply) => AfterAttempt(p, s, Verdict(expired, reply))
    case Settled(ok) => AfterSettling(p, s, ok)
    case CheckDisconnect(t, a) => BeginCheck(s, t, a)
    case Probed(t, reply) => AfterProbe(s, t, reply)
    case Emitted(t) => EndCheck(s, t)
    case CheckCancelled(t) =>
      if s.checks[t].Probing?
      then EndCheck(s.(log := s.log + [ProbeEnded(s.checks[t].account, NoAnswer)]), t)
      else EndCheck(s, t)
    case LinkLost => s.(appPending := false, store := Apply(s.store, InvalidateAll))
    case LinkRestored => s.(restorer := RestoringApp)
    case AppRestored(ok) => AfterAppRestored(p, s, ok)
    case AccountRestored(expired, reply) =>
      if Verdict(expired, reply) == Success
      then s.(store := Apply(s.store, Authorize(s.restorer.todo[0])), restorer := s.restorer.(settling := true))
      else NextAccount(s, s.restorer, false)
    case AccountSettled(ok) => NextAccount(s, s.restorer, ok)
    case Foreign(op) => s.(store := Apply(s.store, op))
    case Tick(d) => s.(now := s.now + d)
    case Shutdown => s.(loop := Ended, appPending := false, store := Apply(s.store, InvalidateAll))
  }

  ghost predicate Legal(p: Policy, s: State, es: seq<Event>)
    decreases es
  {
    es == [] || (Enabled(s, es[0]) && Legal(p, Next(p, s, es[0]), es[1..]))
  }

  ghost function Exec(p: Policy, s: State, es: seq<Event>): State
    requires Legal(p, s, es)
    decreases es
  {
    if es == [] then s else Exec(p, Next(p, s, es[0]), es[1..])
  }
}
