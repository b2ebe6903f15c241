/** The store as an object: its dictionaries, and the methods that change them. */
module SessionStoreObject {
  import opened Sessions
  import W = Windows

  class SessionStore {
    var order: seq<AccountId>
    var accounts: map<AccountId, Tracked>
    var refreshing: map<AccountId, W.EventId>
    var nextEvent: W.EventId
    var settled: set<W.EventId>
    var waiters: map<W.TaskId, W.Waiter>

    ghost function Model(): Store
      reads `order, `accounts
    {
      Store(order, accounts)
    }

    ghost function WindowModel(): W.State
      reads `refreshing, `nextEvent, `settled, `waiters
    {
      W.State(refreshing, nextEvent, settled, waiters)
    }

    ghost predicate Valid()
      reads `order, `accounts
    {
      WellFormed(Model())
    }

    constructor ()
      ensures Valid() && Model() == EMPTY && WindowModel() == W.START
    {
      order, accounts := [], map[];
      refreshing, nextEvent, settled, waiters := map[], 0, {}, map[];
    }

    method SetItem(a: AccountId, t: Tracked)
      modifies `order, `accounts
      ensures Model() == Put(old(Model()), a, t)
    {
      if a !in accounts { order := order + [a]; }
      accounts := accounts[a := t];
    }

    method Authorize(c: Credentials)
      requires Valid()
      modifies `order, `accounts
      ensures Valid() && Model() == Apply(old(Model()), Op.Authorize(c))
    {
      ApplyWellFormed(Model(), Op.Authorize(c));
      SetItem(c.accountId, Tracked(c, Session.Authorized));
    }

    method ReplaceCredentials(c: Credentials)
      requires Valid()
      modifies `order, `accounts
      ensures Valid() && Model() == Apply(old(Model()), Op.ReplaceCredentials(c))
    {
      ApplyWellFormed(Model(), Op.ReplaceCredentials(c));
      var session := NoSession;
      if c.accountId in accounts { session := accounts[c.accountId].session; }
      SetItem(c.accountId, Tracked(c, session));
    }

    method Remove(a: AccountId) returns (held: bool)
      requires Valid()
      modifies `order, `accounts
      ensures Valid() && Model() == Apply(old(Model()), Op.Remove(a))
      ensures held <==> a in old(accounts)
    {
      ApplyWellFormed(Model(), Op.Remove(a));
      held := a in accounts;
      if held {
        order := Without(order, a);
        accounts := accounts - {a};
      }
    }

    method InvalidateAll()
      requires Valid()
      modifies `accounts
      ensures Valid() && Model() == Apply(old(Model()), Op.InvalidateAll)
    {
      ApplyWellFormed(Model(), Op.InvalidateAll);
      accounts := map a | a in accounts :: Tracked(accounts[a].credentials, NoSession);
    }

    method FlagForRecovery(a: AccountId) returns (flagged: bool)
      requires Valid()
      modifies `order, `accounts
      ensures Valid() && Model() == Apply(old(Model()), Flag(a))
      ensures flagged <==> a in old(accounts) && !old(accounts)[a].session.AwaitingRecovery?
    {
      ApplyWellFormed(Model(), Flag(a));
      if a !in accounts || accounts[a].session.AwaitingRecovery? { return false; }
      SetItem(a, Tracked(accounts[a].credentials, JUST_DROPPED));
      flagged := true;
    }

    method RescheduleRecovery(a: AccountId, attempts: nat, next: real)
      requires Valid()
      modifies `order, `accounts
      ensures Valid() && Model() == Apply(old(Model()), Reschedule(a, attempts, next))
    {
      ApplyWellFormed(Model(), Reschedule(a, attempts, next));
      if a !in accounts || !accounts[a].session.AwaitingRecovery? { return; }
      SetItem(a, Tracked(accounts[a].credentials, AwaitingRecovery(attempts, next)));
    }

    method BeginRefresh(a: AccountId)
      modifies `refreshing, `nextEvent
      ensures WindowModel() == W.Next(old(WindowModel()), W.Begin(a))
    {
      if a !in refreshing {
        refreshing := refreshing[a := nextEvent];
        nextEvent := nextEvent + 1;
      }
    }

    method EndRefresh(a: AccountId)
      modifies `refreshing, `settled
      ensures WindowModel() == W.Next(old(WindowModel()), W.End(a))
    {
      if a in refreshing {
        settled := settled + {refreshing[a]};
        refreshing := refreshing - {a};
      }
    }

    /** The first stretch of wait_for_refresh: `must` says whether the task is now waiting. */
    method WaitForRefresh(t: W.TaskId, a: AccountId) returns (must: bool)
      requires t !in waiters
      modifies `waiters
      ensures WindowModel() == W.Next(old(WindowModel()), W.Wait(t, a))
      ensures must <==> a in refreshing
    {
      must := a in refreshing;
      if must { waiters := waiters[t := W.Waiter(a, refreshing[a])]; }
    }
  }
}
