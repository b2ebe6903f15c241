/** Session recovery as an object: the fields the program keeps, and one method
    for each stretch of code between two suspension points. Every method is
    proved to take the step of the state machine it stands for. */
module SessionRecoveryObject {
  import opened Sessions
  import opened Backoff
  import opened Replies
  import R = Recovery
  import RecoveryProofs
  import opened SessionStoreObject

  class SessionRecovery {
    const policy: Policy
    const store: SessionStore
    var reauthSignal: R.EventId
    var nextEvent: R.EventId
    var raised: set<R.EventId>
    var verifying: set<AccountId>
    var appAuthPending: bool
    var appAuthAttempts: nat
    var appAuthNextAt: real
    var loop: R.Loop
    var checks: map<R.TaskId, R.Check>
    var restorer: R.Restorer
    ghost var log: seq<R.Entry>

    /** `now` is the clock reading of the stretch being run. */
    ghost function Model(now: real): R.State
      reads this, store`order, store`accounts
    {
      R.State(store.Model(), reauthSignal, nextEvent, raised, verifying, appAuthPending, appAuthAttempts,
              appAuthNextAt, now, loop, checks, restorer, log)
    }

    constructor (policy: Policy, store: SessionStore, now: real)
      requires store.Model() == EMPTY
      ensures this.policy == policy && this.store == store && Model(now) == R.Start(now)
    {
      this.policy, this.store := policy, store;
      reauthSignal, nextEvent, raised, verifying := 0, 1, {}, {};
      appAuthPending, appAuthAttempts, appAuthNextAt := false, 0, 0.0;
      loop, checks, restorer, log := R.Top, map[], R.Absent, [];
    }

    // -------------------------------------------------------------------
    // The recovery loop
    // -------------------------------------------------------------------

    /** From the top of the loop to its next suspension. */
    method Turn(now: real)
      requires loop.Top?
      modifies this`loop, this`reauthSignal, this`nextEvent
      ensures Model(now) == R.Next(policy, old(Model(now)), R.Turn)
    {
      if reauthSignal in raised {
        reauthSignal := nextEvent;
        nextEvent := nextEvent + 1;
      }
      var flagged := reauthSignal;
      if appAuthPending {
        var waiting := appAuthNextAt - now;
        if waiting > 0.0 {
          loop := R.Waiting(flagged, now, now + waiting);
        } else {
          loop := R.RetryingApp(flagged);
        }
        return;
      }
      ServeQueue(now, flagged);
    }

    method ServeQueue(now: real, flagged: R.EventId)
      modifies this`loop
      ensures Model(now) == R.ServeQueue(old(Model(now)), flagged)
    {
      var queue := Awaiting(Store(store.order, store.accounts));
      if queue == [] {
        loop := R.Idle(flagged);
        return;
      }
      var due := SelectDue(queue, now);
      if due == [] {
        var soonest := SoonestOf(queue);
        loop := R.Waiting(flagged, now, now + (soonest - now));
      } else {
        loop := R.Attempting(due);
      }
    }

    method Wake(now: real)
      requires R.Enabled(Model(now), R.Wake)
      modifies this`loop
      ensures Model(now) == R.Next(policy, old(Model(now)), R.Wake)
    {
      loop := R.Top;
    }

    /** `_retry_app_auth` resumes; once the application is back, straight on to the accounts. */
    method AppAuthAnswered(now: real, ok: bool)
      requires R.Enabled(Model(now), R.AppAnswered(ok))
      modifies this`loop, this`appAuthPending, this`appAuthAttempts, this`appAuthNextAt
      ensures Model(now) == R.Next(policy, old(Model(now)), R.AppAnswered(ok))
    {
      if !ok {
        DeferAppAuth(now);
        loop := R.Top;
        return;
      }
      var flagged := loop.flagged;
      appAuthPending := false;
      appAuthAttempts := 0;
      ServeQueue(now, flagged);
    }

    method DeferAppAuth(now: real)
      modifies this`appAuthAttempts, this`appAuthNextAt
      ensures Model(now) == R.DeferApp(policy, old(Model(now)))
    {
      appAuthAttempts := appAuthAttempts + 1;
      appAuthNextAt := now + Delay(policy, appAuthAttempts);
    }

    method DeferRecovery(now: real, d: Due)
      requires store.Valid()
      modifies store`order, store`accounts
      ensures store.Valid() && Model(now) == R.Defer(policy, old(Model(now)), d)
    {
      var attempts := d.attempts + 1;
      store.RescheduleRecovery(d.account, attempts, now + Delay(policy, attempts));
    }

    method Proceed(now: real, queue: seq<Due>)
      modifies this`loop
      ensures Model(now) == R.Proceed(old(Model(now)), queue)
    {
      loop := if queue == [] then R.Top else R.Attempting(queue);
    }

    /** The server has answered for the first account of the queue. */
    method EstablishAnswered(now: real, expired: bool, reply: Reply)
      requires store.Valid() && R.Enabled(Model(now), R.Attempted(expired, reply))
      modifies this`loop, store`order, store`accounts
      ensures store.Valid() && Model(now) == R.Next(policy, old(Model(now)), R.Attempted(expired, reply))
    {
      var queue := loop.queue;
      match Verdict(expired, reply)
      case Success =>
        store.Authorize(queue[0].credentials);
        loop := R.Settling(queue);
      case AccountRefused(true) =>
        store.Authorize(queue[0].credentials);
        loop := R.Announcing(queue);
      case _ =>
        DeferRecovery(now, queue[0]);
        Proceed(now, queue[1..]);
    }

    method SettlingDone(now: real, ok: bool)
      requires store.Valid() && R.Enabled(Model(now), R.Settled(ok))
      modifies this`loop, this`log, store`order, store`accounts
      ensures store.Valid() && Model(now) == R.Next(policy, old(Model(now)), R.Settled(ok))
    {
      var queue := loop.queue;
      if loop.Settling? && !ok {
        DeferRecovery(now, queue[0]);
      } else {
        log := log + [R.Ready(queue[0].account, loop.Settling?)];
      }
      Proceed(now, queue[1..]);
    }

    // -------------------------------------------------------------------
    // Reported disconnects
    // -------------------------------------------------------------------

    /** From the end of any refresh window to the probe. */
    method CheckDisconnect(now: real, t: R.TaskId, a: AccountId)
      requires t !in checks
      modifies this`verifying, this`checks, this`log
      ensures Model(now) == R.Next(policy, old(Model(now)), R.CheckDisconnect(t, a))
    {
      if a !in store.accounts || store.accounts[a].session != Authorized { return; }
      if a in verifying { return; }
      verifying := verifying + {a};
      checks := checks[t := R.Probing(a)];
      log := log + [R.ProbeBegun(a, true)];
    }

    /** The probe has been answered. A refusal is announced and handed to the loop. */
    method ProbeAnswered(now: real, t: R.TaskId, reply: Reply)
      requires store.Valid() && R.Enabled(Model(now), R.Probed(t, reply))
      modifies this`verifying, this`checks, this`raised, this`log, store`order, store`accounts
      ensures store.Valid() && Model(now) == R.Next(policy, old(Model(now)), R.Probed(t, reply))
    {
      var a := checks[t].account;
      log := log + [R.ProbeEnded(a, reply)];
      if ProbeOf(reply) != Dead {
        CheckDone(now, t);
      } else {
        var flagged := store.FlagForRecovery(a);
        raised := raised + {reauthSignal};
        checks := checks[t := R.Reporting(a)];
        log := log + [R.Disconnected(a)];
      }
    }

    method CheckDone(now: real, t: R.TaskId)
      requires t in checks
      modifies this`verifying, this`checks
      ensures Model(now) == R.EndCheck(old(Model(now)), t)
    {
      verifying := verifying - {checks[t].account};
      checks := checks - {t};
    }

    // -------------------------------------------------------------------
    // The link
    // -------------------------------------------------------------------

    method OnConnectionLost(now: real)
      requires store.Valid()
      modifies this`appAuthPending, store`accounts
      ensures store.Valid() && Model(now) == R.Next(policy, old(Model(now)), R.LinkLost)
    {
      appAuthPending := false;
      store.InvalidateAll();
    }

    /** The application could not be re-authenticated: the loop takes over, with
        every account flagged for it. */
    method ArmAppAuthRecovery(now: real)
      requires store.Valid()
      modifies this`appAuthPending, this`appAuthAttempts, this`appAuthNextAt, this`raised, store`order, store`accounts
      ensures store.Valid() && Model(now) == R.ArmAppRecovery(policy, old(Model(now)))
    {
      appAuthPending := true;
      appAuthAttempts := 0;
      DeferAppAuth(now);
      var ids := store.order;
      for i := 0 to |ids|
        modifies store`order, store`accounts
        invariant store.Valid()
        invariant R.FlagAll(store.Model(), ids[i..]) == R.FlagAll(old(store.Model()), ids)
      {
        assert ids[i..][1..] == ids[i + 1..];
        var flagged := store.FlagForRecovery(ids[i]);
      }
      assert ids[|ids|..] == [];
      raised := raised + {reauthSignal};
    }

    method AppAuthRestored(now: real, ok: bool)
      requires store.Valid() && R.Enabled(Model(now), R.AppRestored(ok))
      modifies this, store`order, store`accounts
      ensures store.Valid() && Model(now) == R.Next(policy, old(Model(now)), R.AppRestored(ok))
    {
      if !ok {
        ArmAppAuthRecovery(now);
        restorer := R.Absent;
        log := log + [R.Reconnected(false, [], [], [])];
        return;
      }
      var todo := AllCredentials(Store(store.order, store.accounts));
      if todo == [] {
        restorer := R.Absent;
        log := log + [R.Reconnected(true, [], [], [])];
      } else {
        restorer := R.Restoring(todo, false, [], [], R.Ids(todo));
      }
    }

    /** The next account has been authorized, or has failed. */
    method AccountAnswered(now: real, expired: bool, reply: Reply)
      requires store.Valid() && R.Enabled(Model(now), R.AccountRestored(expired, reply))
      modifies this`restorer, this`log, store`order, store`accounts
      ensures store.Valid() && Model(now) == R.Next(policy, old(Model(now)), R.AccountRestored(expired, reply))
    {
      if Verdict(expired, reply) == Success {
        store.Authorize(restorer.todo[0]);
        restorer := restorer.(settling := true);
      } else {
        NextAccount(now, false);
      }
    }

    method NextAccount(now: real, ok: bool)
      requires restorer.Restoring? && restorer.todo != []
      modifies this`restorer, this`log
      ensures Model(now) == R.NextAccount(old(Model(now)), old(restorer), ok)
    {
      var a := restorer.todo[0].accountId;
      var restored, failed := restorer.restored, restorer.failed;
      if ok { restored := restored + [a]; } else { failed := failed + [a]; }
      if |restorer.todo| == 1 {
        log := log + [R.Reconnected(true, restored, failed, restorer.snapshot)];
        restorer := R.Absent;
      } else {
        restorer := R.Restoring(restorer.todo[1..], false, restored, failed, restorer.snapshot);
      }
    }
  }

  /** The accounts of a queue that are due. */
  method SelectDue(queue: seq<Due>, now: real) returns (due: seq<Due>)
    ensures due == R.DueNow(queue, now)
  {
    due := [];
    for i := |queue| downto 0
      invariant due == R.DueNow(queue[i..], now)
    {
      assert queue[i..][1..] == queue[i + 1..];
      if queue[i].nextAttemptAt <= now { due := [queue[i]] + due; }
    }
    assert queue[0..] == queue;
  }

  /** The earliest next attempt in a queue. */
  method SoonestOf(queue: seq<Due>) returns (t: real)
    requires queue != []
    ensures t == R.Soonest(queue)
    ensures (forall d | d in queue :: t <= d.nextAttemptAt) && exists d | d in queue :: t == d.nextAttemptAt
  {
    RecoveryProofs.SoonestIsLeast(queue);
    t := queue[|queue| - 1].nextAttemptAt;
    for i := |queue| - 1 downto 0
      invariant t == R.Soonest(queue[i..])
    {
      assert queue[i..][1..] == queue[i + 1..];
      if queue[i].nextAttemptAt <= t { t := queue[i].nextAttemptAt; }
    }
    assert queue[0..] == queue;
  }
}
