/** Rotating tokens. A refresh token works once: the server invalidates the old
    pair as it issues the new one. */
module Refresh {
  import opened Replies
  import opened Sessions
  import opened SessionStoreObject
  import W = Windows

  /** How a refresh request ends: with a new pair, an error, or no answer. */
  datatype Renewal =
    | Pair(accessToken: string, refreshToken: string, expiresIn: real)
    | Denied(code: ErrorCode)
    | Unsettled

  /** Only an API error that is not about the token is worth asking again. */
  predicate WorthAnother(reply: Renewal) { reply.Denied? && reply.code != TokenFailure }

  /** What the environment does during one refresh: its answers, the wall clock
      when each arrives, and what other tasks do to the store at each suspension. */
  datatype Script = Script(
    replies: nat -> Renewal,
    wall: nat -> real,
    saves: bool,                  // whether persisting the pair succeeds
    expired: bool,                // whether the new access token has expired by the time it is to be presented
    answer: Reply,                // and how presenting it ends, if it is
    others: nat -> seq<Op>)

  datatype Action =
    | Opened(account: AccountId)
    | Requested(refreshToken: string)
    | Stored(credentials: Credentials)
    | Saved(credentials: Credentials, ok: bool)
    | Presented(credentials: Credentials)
    | ClosedWindow

  datatype Policy = Policy(retryAttempts: int, bufferSeconds: real, persists: bool)

  /** The retry loop always makes one attempt. */
  function Limit(p: Policy): nat { if p.retryAttempts < 1 then 1 else p.retryAttempts }

  function Rotated(c: Credentials, reply: Renewal, wall: real): Credentials
    requires reply.Pair?
  {
    Credentials(c.accountId, reply.accessToken, reply.refreshToken, wall + reply.expiresIn)
  }

  /** What follows a new pair. */
  function Keep(p: Policy, c: Credentials, e: Script): seq<Action> {
    [Stored(c)]
    + (if p.persists then [Saved(c, e.saves)] else [])
    + (if (p.persists && !e.saves) || e.expired then [] else [Presented(c)])
  }

  /** The requests of one refresh, from the given attempt on. */
  function Attempts(p: Policy, c: Credentials, e: Script, n: nat): seq<Action>
    requires n < Limit(p)
    decreases Limit(p) - n, 1
  {
    [Requested(c.refreshToken)] + AfterReply(p, c, e, n)
  }

  function AfterReply(p: Policy, c: Credentials, e: Script, n: nat): seq<Action>
    requires n < Limit(p)
    decreases Limit(p) - n, 0
  {
    match e.replies(n)
    case Pair(_, _, _) => Keep(p, Rotated(c, e.replies(n), e.wall(n)), e)
    case Denied(code) =>
      if code == TokenFailure || n + 1 == Limit(p) then [] else Attempts(p, c, e, n + 1)
    case Unsettled => []
  }

  function Trace(p: Policy, c: Credentials, e: Script): seq<Action> {
    [Opened(c.accountId)] + Attempts(p, c, e, 0) + [ClosedWindow]
  }

  lemma WholeTrace(t: seq<Action>, p: Policy, c: Credentials, e: Script)
    ensures t + [Opened(c.accountId)] + Attempts(p, c, e, 0) + [ClosedWindow] == t + Trace(p, c, e)
  {
    var first := [Opened(c.accountId)];
    assert forall inside: seq<Action> :: t + first + inside + [ClosedWindow] == t + (first + inside + [ClosedWindow]);
  }

  // ---------------------------------------------------------------------
  // What becomes of the store
  // ---------------------------------------------------------------------

  function ApplyAll(s: Store, ops: seq<Op>): Store {
    if ops == [] then s else Apply(ApplyAll(s, ops[..|ops| - 1]), ops[|ops| - 1])
  }

  datatype Rotation = Rotation(store: Store, failed: bool)

  /** A new pair is held before anything else is done with it; the account is
      authorized once the pair has been accepted. */
  function Kept(p: Policy, s: Store, c: Credentials, e: Script): Rotation {
    var held := Apply(s, Op.ReplaceCredentials(c));
    var saved := if p.persists then ApplyAll(held, e.others(0)) else held;
    if (p.persists && !e.saves) || e.expired then Rotation(saved, true)
    else
      var answered := ApplyAll(saved, e.others(1));
      if Verdict(e.expired, e.answer) == Success then Rotation(Apply(answered, Op.Authorize(c)), false) else Rotation(answered, true)
  }

  function Rotate(p: Policy, s: Store, c: Credentials, e: Script, n: nat): Rotation
    requires n < Limit(p)
    decreases Limit(p) - n
  {
    var s' := ApplyAll(s, e.others(n + 2));
    match e.replies(n)
    case Pair(_, _, _) => Kept(p, s', Rotated(c, e.replies(n), e.wall(n)), e)
    case Denied(code) =>
      if code == TokenFailure || n + 1 == Limit(p) then Rotation(s', true) else Rotate(p, s', c, e, n + 1)
    case Unsettled => Rotation(s', true)
  }

  /** All that a check works on: the store, what has been done, and the failures announced. */
  datatype Books = Books(store: Store, trace: seq<Action>, failures: seq<AccountId>)

  function Refreshed(p: Policy, b: Books, a: AccountId, e: Script): Books {
    if a !in b.store.accounts then b
    else
      var c := b.store.accounts[a].credentials;
      var r := Rotate(p, b.store, c, e, 0);
      Books(r.store, b.trace + Trace(p, c, e), if r.failed then b.failures + [a] else b.failures)
  }

  predicate ExpiresSoon(c: Credentials, buffer: real, wall: real) { wall >= c.expiresAt - buffer }

  /** The first n of the accounts held as the check began, each looked at as it
      then was, and refreshed if its token was about to expire. */
  function Checked(p: Policy, b: Books, items: seq<Credentials>, wall: nat -> real, scripts: nat -> Script, n: nat): Books
    requires n <= |items|
  {
    if n == 0 then b
    else
      var before := Checked(p, b, items, wall, scripts, n - 1);
      var c := items[n - 1];
      if ExpiresSoon(c, p.bufferSeconds, wall(n - 1)) then Refreshed(p, before, c.accountId, scripts(n - 1)) else before
  }

  // ---------------------------------------------------------------------
  // The refresher
  // ---------------------------------------------------------------------

  method Elsewhere(store: SessionStore, ops: seq<Op>)
    requires store.Valid()
    modifies store`order, store`accounts
    ensures store.Valid() && store.Model() == ApplyAll(old(store.Model()), ops)
  {
    for i := 0 to |ops|
      modifies store`order, store`accounts
      invariant store.Valid() && store.Model() == ApplyAll(old(store.Model()), ops[..i])
    {
      assert ops[..i + 1][..i] == ops[..i];
      match ops[i]
      case Authorize(c) => store.Authorize(c);
      case ReplaceCredentials(c) => store.ReplaceCredentials(c);
      case Remove(a) => var held := store.Remove(a);
      case InvalidateAll => store.InvalidateAll();
      case Flag(a) => var flagged := store.FlagForRecovery(a);
      case Reschedule(a, attempts, next) => store.RescheduleRecovery(a, attempts, next);
    }
    assert ops[..|ops|] == ops;
  }

  class TokenRefresher {
    const store: SessionStore
    const policy: Policy
    ghost var trace: seq<Action>
    var failures: seq<AccountId>       // accounts whose failed refresh was announced

    ghost function Model(): Books
      reads this, store`order, store`accounts
    {
      Books(store.Model(), trace, failures)
    }

    constructor (store: SessionStore, policy: Policy)
      ensures this.store == store && this.policy == policy && trace == [] && failures == []
    {
      this.store, this.policy := store, policy;
      trace, failures := [], [];
    }

    /** What is done with a new pair: kept, persisted, and only then presented. */
    method KeepPair(c: Credentials, e: Script) returns (failed: bool)
      requires store.Valid()
      modifies this`trace, store`order, store`accounts
      ensures store.Valid()
      ensures trace == old(trace) + Keep(policy, c, e)
      ensures Rotation(store.Model(), failed) == Kept(policy, old(store.Model()), c, e)
    {
      store.ReplaceCredentials(c);
      trace := trace + [Stored(c)];
      if policy.persists {
        Elsewhere(store, e.others(0));
        trace := trace + [Saved(c, e.saves)];
        if !e.saves { return true; }
      }
      if e.expired { return true; }
      trace := trace + [Presented(c)];
      Elsewhere(store, e.others(1));
      failed := Verdict(e.expired, e.answer) != Success;
      if !failed { store.Authorize(c); }
    }

    /** One request and what follows its reply; `again` if it is worth asking again. */
    method Attempt(c: Credentials, e: Script, n: nat) returns (again: bool, failed: bool)
      requires store.Valid() && n < Limit(policy)
      modifies this`trace, store`order, store`accounts
      ensures store.Valid()
      ensures !again ==> trace == old(trace) + Attempts(policy, c, e, n)
                         && Rotation(store.Model(), failed) == Rotate(policy, old(store.Model()), c, e, n)
      ensures again ==> n + 1 < Limit(policy)
                        && trace + Attempts(policy, c, e, n + 1) == old(trace) + Attempts(policy, c, e, n)
                        && Rotate(policy, store.Model(), c, e, n + 1) == Rotate(policy, old(store.Model()), c, e, n)
    {
      trace := trace + [Requested(c.refreshToken)];
      Elsewhere(store, e.others(n + 2));
      again, failed := false, true;
      match e.replies(n)
      case Pair(_, _, _) =>
        failed := KeepPair(Rotated(c, e.replies(n), e.wall(n)), e);
      case Denied(code) =>
        again := code != TokenFailure && n + 1 < Limit(policy);
      case Unsettled =>
    }

    /** The retry loop: ask until there is a pair, or a failure that asking again cannot mend. */
    method TryRefresh(c: Credentials, e: Script) returns (failed: bool)
      requires store.Valid()
      modifies this`trace, store`order, store`accounts
      ensures store.Valid()
      ensures trace == old(trace) + Attempts(policy, c, e, 0)
      ensures Rotation(store.Model(), failed) == Rotate(policy, old(store.Model()), c, e, 0)
    {
      ghost var all := old(trace) + Attempts(policy, c, e, 0);
      ghost var end := Rotate(policy, store.Model(), c, e, 0);
      var n, again := 0, true;
      failed := true;
      while again
        modifies this`trace, store`order, store`accounts
        invariant store.Valid()
        invariant again ==> n < Limit(policy)
        invariant all == if again then trace + Attempts(policy, c, e, n) else trace
        invariant end == if again then Rotate(policy, store.Model(), c, e, n) else Rotation(store.Model(), failed)
        decreases again, Limit(policy) - n
      {
        again, failed := Attempt(c, e, n);
        n := n + 1;
      }
    }

    /** Refreshes one account inside its window, which is left whatever happens. */
    method RefreshAccount(a: AccountId, e: Script) returns (failed: bool)
      requires store.Valid() && a !in store.refreshing
      modifies this`trace, store`order, store`accounts, store`refreshing, store`nextEvent, store`settled
      ensures store.Valid() && store.refreshing == old(store.refreshing)
      ensures Books(store.Model(), trace, if failed then failures + [a] else failures)
              == Refreshed(policy, old(Model()), a, e)
    {
      if a !in store.accounts { return false; }
      var credentials := store.accounts[a].credentials;
      store.BeginRefresh(a);
      trace := trace + [Opened(a)];
      failed := TryRefresh(credentials, e);
      store.EndRefresh(a);
      trace := trace + [ClosedWindow];
      WholeTrace(old(trace), policy, credentials, e);
    }

    /** One check of every account held when it began, in order. */
    method CheckAll(wall: nat -> real, scripts: nat -> Script)
      requires store.Valid() && store.refreshing == map[]
      modifies this, store`order, store`accounts, store`refreshing, store`nextEvent, store`settled
      ensures store.Valid() && store.refreshing == map[]
      ensures var items := AllCredentials(old(store.Model()));
              Model() == Checked(policy, old(Model()), items, wall, scripts, |items|)
    {
      var items := AllCredentials(Store(store.order, store.accounts));
      for i := 0 to |items|
        modifies this, store`order, store`accounts, store`refreshing, store`nextEvent, store`settled
        invariant store.Valid() && store.refreshing == map[]
        invariant Model() == Checked(policy, old(Model()), items, wall, scripts, i)
      {
        if ExpiresSoon(items[i], policy.bufferSeconds, wall(i)) { RefreshAndReport(items[i].accountId, scripts(i)); }
      }
    }

    method RefreshAndReport(a: AccountId, e: Script)
      requires store.Valid() && a !in store.refreshing
      modifies this, store`order, store`accounts, store`refreshing, store`nextEvent, store`settled
      ensures store.Valid() && store.refreshing == old(store.refreshing)
      ensures Model() == Refreshed(policy, old(Model()), a, e)
    {
      var failed := RefreshAccount(a, e);
      if failed { failures := failures + [a]; }
    }
  }

  // ---------------------------------------------------------------------
  // One shot
  // ---------------------------------------------------------------------

  ghost function Requests(t: seq<Action>): nat {
    if t == [] then 0 else (if t[0].Requested? then 1 else 0) + Requests(t[1..])
  }

  /** A rotation as it should go: requests first, all with the token held when it
      began; then at most one pair, stored before it is persisted, persisted
      before it is presented, and presented only if that succeeded. */
  ghost predicate OneShot(p: Policy, c: Credentials, t: seq<Action>) {
    && (forall i | 0 <= i < |t| && t[i].Requested? :: t[i].refreshToken == c.refreshToken)
    && (forall i, j | 0 <= i < |t| && 0 <= j < |t| && t[i].Stored? && t[j].Requested? :: j < i)
    && (forall i, j | 0 <= i < |t| && 0 <= j < |t| && t[i].Stored? && t[j].Stored? :: i == j)
    && (forall i | 0 <= i < |t| && t[i].Saved? :: 0 < i && t[i - 1] == Stored(t[i].credentials))
    && (forall i | 0 <= i < |t| && t[i].Presented? :: 0 < i
          && t[i - 1] == if p.persists then Saved(t[i].credentials, true) else Stored(t[i].credentials))
    && (forall i | 0 <= i < |t| && (t[i].Opened? || t[i].ClosedWindow?) :: false)
  }

  lemma KeepShape(p: Policy, c: Credentials, e: Script)
    ensures var k := Keep(p, c, e);
            && 1 <= |k| <= 3 && k[0] == Stored(c)
            && (forall i | 0 < i < |k| :: k[i].Saved? || k[i].Presented?)
            && (forall i | 0 <= i < |k| && k[i].Saved? :: i == 1 && k[i].credentials == c)
            && (forall i | 0 <= i < |k| && k[i].Presented? ::
                  k[i].credentials == c && i > 0 && k[i - 1] == if p.persists then Saved(c, true) else Stored(c))
  {
  }

  lemma {:induction false} NoRequests(t: seq<Action>)
    requires forall i | 0 <= i < |t| :: !t[i].Requested?
    ensures Requests(t) == 0
  {
    if t != [] { NoRequests(t[1..]); }
  }

  lemma {:induction false} AttemptsOneShot(p: Policy, c: Credentials, e: Script, n: nat)
    requires n < Limit(p)
    ensures OneShot(p, c, Attempts(p, c, e, n))
    ensures Requests(Attempts(p, c, e, n)) <= Limit(p) - n
    decreases Limit(p) - n
  {
    var t := Attempts(p, c, e, n);
    var first := [Requested(c.refreshToken)];
    var rest := AfterReply(p, c, e, n);
    assert t == first + rest && t[1..] == rest;
    match e.replies(n)
    case Pair(_, _, _) =>
      var pair := Rotated(c, e.replies(n), e.wall(n));
      assert rest == Keep(p, pair, e);
      KeepShape(p, pair, e);
      NoRequests(rest);
    case Denied(code) =>
      if code == TokenFailure || n + 1 == Limit(p) {
        assert rest == [];
      } else {
        assert rest == Attempts(p, c, e, n + 1);
        AttemptsOneShot(p, c, e, n + 1);
        OneMoreRequest(p, c, rest);
      }
    case Unsettled => assert rest == [];
  }

  lemma OneMoreRequest(p: Policy, c: Credentials, rest: seq<Action>)
    requires OneShot(p, c, rest)
    ensures OneShot(p, c, [Requested(c.refreshToken)] + rest)
  {
    var t := [Requested(c.refreshToken)] + rest;
    assert forall i | 0 < i < |t| :: t[i] == rest[i - 1];
  }

  /** However the server answers, a refresh sends at most as many requests as it
      is allowed, all with the one refresh token it began with, and none once a
      pair has arrived; and it always leaves the window it opened. */
  lemma RotationIsOneShot(p: Policy, c: Credentials, e: Script)
    ensures var t := Trace(p, c, e);
            && t[0] == Opened(c.accountId) && t[|t| - 1] == ClosedWindow
            && OneShot(p, c, t[1..|t| - 1])
            && 1 <= Requests(t[1..|t| - 1]) <= Limit(p)
  {
    AttemptsOneShot(p, c, e, 0);
    var t := Trace(p, c, e);
    assert t[1..|t| - 1] == Attempts(p, c, e, 0);
  }

  /** How the last of these attempts is answered. */
  lemma {:induction false} Course(p: Policy, s: Store, c: Credentials, e: Script, n: nat) returns (last: nat)
    requires n < Limit(p)
    ensures n <= last < Limit(p) && Requests(Attempts(p, c, e, n)) == last - n + 1
    ensures forall k: nat | n <= k < last :: WorthAnother(e.replies(k))
    ensures last + 1 < Limit(p) ==> !WorthAnother(e.replies(last))
    ensures Rotate(p, s, c, e, n).failed <==> !(e.replies(last).Pair? && (p.persists ==> e.saves) && !e.expired && e.answer == Answered)
    ensures forall x :: Stored(x) in Attempts(p, c, e, n) <==> e.replies(last).Pair? && x == Rotated(c, e.replies(last), e.wall(last))
    ensures forall x :: Saved(x, e.saves) in Attempts(p, c, e, n) <==> Stored(x) in Attempts(p, c, e, n) && p.persists
    ensures forall x :: Presented(x) in Attempts(p, c, e, n) <==>
              Stored(x) in Attempts(p, c, e, n) && (p.persists ==> e.saves) && !e.expired
    decreases Limit(p) - n
  {
    var t, rest := Attempts(p, c, e, n), AfterReply(p, c, e, n);
    assert t == [Requested(c.refreshToken)] + rest && t[1..] == rest;
    if WorthAnother(e.replies(n)) && n + 1 < Limit(p) {
      last := Course(p, ApplyAll(s, e.others(n + 2)), c, e, n + 1);
    } else {
      last := n;
      if e.replies(n).Pair? {
        PairCourse(p, ApplyAll(s, e.others(n + 2)), Rotated(c, e.replies(n), e.wall(n)), e);
      } else {
        assert rest == [];
      }
    }
  }

  lemma PairCourse(p: Policy, s: Store, c: Credentials, e: Script)
    ensures Requests(Keep(p, c, e)) == 0
    ensures forall x :: Stored(x) in Keep(p, c, e) <==> x == c
    ensures forall x :: Saved(x, e.saves) in Keep(p, c, e) <==> x == c && p.persists
    ensures forall x :: Presented(x) in Keep(p, c, e) <==> x == c && (p.persists ==> e.saves) && !e.expired
    ensures Kept(p, s, c, e).failed <==> !((p.persists ==> e.saves) && !e.expired && e.answer == Answered)
  {
    KeepShape(p, c, e);
    NoRequests(Keep(p, c, e));
    assert Keep(p, c, e)[0] == Stored(c);
  }

  /** A refresh asks as long as the answer is an error worth asking again after, at
      most as often as the policy allows and once at least; it stores the pair if
      the last answer was one, persists it if there is anywhere to, presents it if
      that went well and it has not expired, and has failed unless it was accepted. */
  lemma RotationRunsItsCourse(p: Policy, s: Store, c: Credentials, e: Script) returns (last: nat)
    ensures var most := if p.retryAttempts < 1 then 1 else p.retryAttempts;
            var t := Trace(p, c, e);
            && Requests(t[1..|t| - 1]) == last + 1 <= most
            && (forall k: nat | k < last :: WorthAnother(e.replies(k)))
            && (last + 1 < most ==> !WorthAnother(e.replies(last)))
            && (forall x :: Stored(x) in t <==> e.replies(last).Pair? && x == Rotated(c, e.replies(last), e.wall(last)))
            && (forall x :: Saved(x, e.saves) in t <==> Stored(x) in t && p.persists)
            && (forall x :: Presented(x) in t <==> Stored(x) in t && (p.persists ==> e.saves) && !e.expired)
            && (Rotate(p, s, c, e, 0).failed <==>
                  !(e.replies(last).Pair? && (p.persists ==> e.saves) && !e.expired && e.answer == Answered))
  {
    last := Course(p, s, c, e, 0);
    var t, inside := Trace(p, c, e), Attempts(p, c, e, 0);
    assert t[1..|t| - 1] == inside;
    assert forall x: Action | !x.Opened? && !x.ClosedWindow? :: x in t <==> x in inside;
  }

  // ---------------------------------------------------------------------
  // One window at a time
  // ---------------------------------------------------------------------

  ghost function OpenWindows(t: seq<Action>): int {
    if t == [] then 0
    else
      var e := t[|t| - 1];
      OpenWindows(t[..|t| - 1]) + if e.Opened? then 1 else if e.ClosedWindow? then -1 else 0
  }

  /** At no point is more than one window open. */
  ghost predicate OneWindow(t: seq<Action>) {
    forall n | 0 <= n <= |t| :: 0 <= OpenWindows(t[..n]) <= 1
  }

  predicate NoWindow(t: seq<Action>) {
    forall i | 0 <= i < |t| :: !t[i].Opened? && !t[i].ClosedWindow?
  }

  lemma {:induction false} InsideWindow(t: seq<Action>, more: seq<Action>)
    requires OneWindow(t) && OpenWindows(t) == 1
    requires NoWindow(more)
    ensures OneWindow(t + more) && OpenWindows(t + more) == 1
    decreases |more|
  {
    if more == [] {
      assert t + more == t;
    } else {
      var before := more[..|more| - 1];
      InsideWindow(t, before);
      WindowOn(t + before, more[|more| - 1]);
      assert t + more == (t + before) + [more[|more| - 1]];
    }
  }

  lemma WindowOn(t: seq<Action>, e: Action)
    requires OneWindow(t)
    ensures OpenWindows(t + [e]) == OpenWindows(t) + if e.Opened? then 1 else if e.ClosedWindow? then -1 else 0
    ensures 0 <= OpenWindows(t + [e]) <= 1 ==> OneWindow(t + [e])
  {
    assert (t + [e])[..|t|] == t;
    forall n | 0 <= n <= |t| ensures (t + [e])[..n] == t[..n] { }
    assert (t + [e])[..|t| + 1] == t + [e];
  }

  lemma NoWindowInside(p: Policy, c: Credentials, e: Script)
    ensures NoWindow(Attempts(p, c, e, 0))
  {
    AttemptsOneShot(p, c, e, 0);
  }

  lemma OneMoreWindow(p: Policy, c: Credentials, e: Script, t: seq<Action>)
    requires OneWindow(t) && OpenWindows(t) == 0
    ensures OneWindow(t + Trace(p, c, e)) && OpenWindows(t + Trace(p, c, e)) == 0
  {
    var inside := Attempts(p, c, e, 0);
    NoWindowInside(p, c, e);
    var first := Opened(c.accountId);
    WindowOn(t, first);
    InsideWindow(t + [first], inside);
    WindowOn((t + [first]) + inside, ClosedWindow);
    assert t + Trace(p, c, e) == ((t + [first]) + inside) + [ClosedWindow];
  }

  /** A check opens windows one after the other, and leaves none open. */
  lemma {:induction false} CheckKeepsOneWindow(p: Policy, b: Books, items: seq<Credentials>,
                                               wall: nat -> real, scripts: nat -> Script, n: nat)
    requires n <= |items| && OneWindow(b.trace) && OpenWindows(b.trace) == 0
    ensures var t := Checked(p, b, items, wall, scripts, n).trace; OneWindow(t) && OpenWindows(t) == 0
    decreases n
  {
    if n > 0 {
      CheckKeepsOneWindow(p, b, items, wall, scripts, n - 1);
      var before := Checked(p, b, items, wall, scripts, n - 1);
      var a := items[n - 1].accountId;
      if a in before.store.accounts {
        OneMoreWindow(p, before.store.accounts[a].credentials, scripts(n - 1), before.trace);
      }
    }
  }

  // ---------------------------------------------------------------------
  // Which pair is held
  // ---------------------------------------------------------------------

  /** What some operations, taken together, do to the credentials of an account. */
  datatype Fate = Untouched | Written(credentials: Credentials) | Removed

  function FateOf(ops: seq<Op>, a: AccountId): Fate {
    if ops == [] then Untouched
    else
      var before := FateOf(ops[..|ops| - 1], a);
      match ops[|ops| - 1]
      case Authorize(c) => if c.accountId == a then Written(c) else before
      case ReplaceCredentials(c) => if c.accountId == a then Written(c) else before
      case Remove(b) => if b == a then Removed else before
      case _ => before
  }

  lemma {:induction false} FateMeans(s: Store, ops: seq<Op>, a: AccountId)
    requires WellFormed(s)
    ensures var s' := ApplyAll(s, ops);
            && WellFormed(s')
            && match FateOf(ops, a)
               case Untouched =>
                 (a in s'.accounts <==> a in s.accounts)
                 && (a in s.accounts ==> s'.accounts[a].credentials == s.accounts[a].credentials)
               case Written(c) => a in s'.accounts && s'.accounts[a].credentials == c
               case Removed => a !in s'.accounts
    decreases |ops|
  {
    if ops != [] {
      FateMeans(s, ops[..|ops| - 1], a);
      ApplyWellFormed(ApplyAll(s, ops[..|ops| - 1]), ops[|ops| - 1]);
    }
  }

  lemma {:induction false} ApplyAllOn(s: Store, first: seq<Op>, more: seq<Op>)
    ensures ApplyAll(s, first + more) == ApplyAll(ApplyAll(s, first), more)
    decreases |more|
  {
    if more == [] {
      assert first + more == first;
    } else {
      var before := more[..|more| - 1];
      assert (first + more)[..|first + more| - 1] == first + before;
      ApplyAllOn(s, first, before);
    }
  }

  /** What other tasks do between the arrival of a pair and the end of the refresh. */
  function Meanwhile(p: Policy, e: Script): seq<Op> {
    (if p.persists then e.others(0) else [])
    + (if (p.persists && !e.saves) || e.expired then [] else e.others(1))
  }

  /** And what they do while the refresh is asking for one. */
  function Asking(p: Policy, e: Script, n: nat): seq<Op>
    requires n < Limit(p)
    decreases Limit(p) - n
  {
    e.others(n + 2) + if WorthAnother(e.replies(n)) && n + 1 < Limit(p) then Asking(p, e, n + 1) else []
  }

  lemma KeptIs(p: Policy, s: Store, c: Credentials, e: Script)
    ensures var end := ApplyAll(Apply(s, Op.ReplaceCredentials(c)), Meanwhile(p, e));
            Kept(p, s, c, e).store == if Kept(p, s, c, e).failed then end else Apply(end, Op.Authorize(c))
  {
    var held := Apply(s, Op.ReplaceCredentials(c));
    var first := if p.persists then e.others(0) else [];
    ApplyAllOn(held, first, e.others(1));
    assert first + [] == first;
  }

  lemma KeptHoldsIff(p: Policy, s: Store, c: Credentials, e: Script)
    requires WellFormed(s)
    ensures WellFormed(Kept(p, s, c, e).store)
    ensures Holds(Kept(p, s, c, e).store, c)
       <==> !Kept(p, s, c, e).failed || FateOf(Meanwhile(p, e), c.accountId) in {Untouched, Written(c)}
  {
    var held := Apply(s, Op.ReplaceCredentials(c));
    var end := ApplyAll(held, Meanwhile(p, e));
    KeptIs(p, s, c, e);
    ApplyWellFormed(s, Op.ReplaceCredentials(c));
    FateMeans(held, Meanwhile(p, e), c.accountId);
    ApplyWellFormed(end, Op.Authorize(c));
  }

  lemma {:induction false} OnePair(p: Policy, c: Credentials, e: Script, n: nat, pair: Credentials)
    requires n < Limit(p)
    ensures Stored(pair) in Attempts(p, c, e, n) <==>
      match e.replies(n)
      case Pair(_, _, _) => pair == Rotated(c, e.replies(n), e.wall(n))
      case Denied(code) => code != TokenFailure && n + 1 < Limit(p) && Stored(pair) in Attempts(p, c, e, n + 1)
      case Unsettled => false
  {
    var rest := AfterReply(p, c, e, n);
    assert Attempts(p, c, e, n) == [Requested(c.refreshToken)] + rest;
    if e.replies(n).Pair? { KeepShape(p, Rotated(c, e.replies(n), e.wall(n)), e); }
  }

  /** The server invalidates the old pair as it issues the new one. The store
      holds the new one when the refresh is over, however saving and presenting
      it went, exactly if it was accepted or no other task, writing in between,
      left the account with different credentials or none. */
  lemma {:induction false} StoreHoldsTheLivePairIff(p: Policy, s: Store, c: Credentials, e: Script, n: nat,
                                                    pair: Credentials)
    requires n < Limit(p) && WellFormed(s) && Stored(pair) in Attempts(p, c, e, n)
    ensures var r := Rotate(p, s, c, e, n);
            && pair.accountId == c.accountId
            && (Holds(r.store, pair) <==> !r.failed || FateOf(Meanwhile(p, e), c.accountId) in {Untouched, Written(pair)})
    decreases Limit(p) - n
  {
    var s' := ApplyAll(s, e.others(n + 2));
    FateMeans(s, e.others(n + 2), c.accountId);
    OnePair(p, c, e, n, pair);
    if e.replies(n).Pair? {
      KeptHoldsIff(p, s', pair, e);
    } else {
      StoreHoldsTheLivePairIff(p, s', c, e, n + 1, pair);
    }
  }

  lemma {:induction false} RotateWellFormed(p: Policy, s: Store, c: Credentials, e: Script, n: nat)
    requires n < Limit(p) && WellFormed(s)
    ensures WellFormed(Rotate(p, s, c, e, n).store)
    decreases Limit(p) - n
  {
    var s' := ApplyAll(s, e.others(n + 2));
    FateMeans(s, e.others(n + 2), c.accountId);
    match e.replies(n)
    case Pair(_, _, _) => KeptHoldsIff(p, s', Rotated(c, e.replies(n), e.wall(n)), e);
    case Denied(code) => if code != TokenFailure && n + 1 < Limit(p) { RotateWellFormed(p, s', c, e, n + 1); }
    case Unsettled =>
  }

  /** Without a new pair the refresh has failed, and has itself changed nothing. */
  lemma {:induction false} NoPairChangesNothing(p: Policy, s: Store, c: Credentials, e: Script, n: nat)
    requires n < Limit(p) && forall pair :: Stored(pair) !in Attempts(p, c, e, n)
    ensures Rotate(p, s, c, e, n) == Rotation(ApplyAll(s, Asking(p, e, n)), true)
    decreases Limit(p) - n
  {
    AskingOn(p, s, e, n);
    match e.replies(n)
    case Pair(_, _, _) => OnePair(p, c, e, n, Rotated(c, e.replies(n), e.wall(n)));
    case Denied(code) =>
      if code != TokenFailure && n + 1 < Limit(p) {
        forall pair ensures Stored(pair) !in Attempts(p, c, e, n + 1) { OnePair(p, c, e, n, pair); }
        NoPairChangesNothing(p, ApplyAll(s, e.others(n + 2)), c, e, n + 1);
      }
    case Unsettled =>
  }

  lemma AskingOn(p: Policy, s: Store, e: Script, n: nat)
    requires n < Limit(p)
    ensures var s' := ApplyAll(s, e.others(n + 2));
            ApplyAll(s, Asking(p, e, n))
            == if WorthAnother(e.replies(n)) && n + 1 < Limit(p) then ApplyAll(s', Asking(p, e, n + 1)) else s'
  {
    if WorthAnother(e.replies(n)) && n + 1 < Limit(p) {
      ApplyAllOn(s, e.others(n + 2), Asking(p, e, n + 1));
    } else {
      assert e.others(n + 2) + [] == e.others(n + 2);
    }
  }

  // ---------------------------------------------------------------------
  // What a check refreshes
  // ---------------------------------------------------------------------

  lemma CheckWellFormed(p: Policy, b: Books, a: AccountId, e: Script)
    requires WellFormed(b.store)
    ensures WellFormed(Refreshed(p, b, a, e).store)
  {
    if a in b.store.accounts { RotateWellFormed(p, b.store, b.store.accounts[a].credentials, e, 0); }
  }

  /** A check of these accounts has, from position `from` of its trace on, opened
      a window for this one, and asked the server there and then. */
  ghost predicate Asked(t: seq<Action>, from: nat, a: AccountId) {
    exists i :: from <= i < |t| - 1 && t[i] == Opened(a) && t[i + 1].Requested?
  }

  lemma TraceOpens(p: Policy, c: Credentials, e: Script, t: seq<Action>, from: nat, a: AccountId)
    requires from <= |t|
    ensures Asked(t + Trace(p, c, e), from, a) <==> Asked(t, from, a) || c.accountId == a
  {
    var more := Trace(p, c, e);
    var all := t + more;
    NoWindowInside(p, c, e);
    assert more[0] == Opened(c.accountId) && more[1] == Requested(c.refreshToken);
    assert forall i | 0 < i < |more| :: !more[i].Opened?;
    if Asked(t, from, a) {
      var i :| from <= i < |t| - 1 && t[i] == Opened(a) && t[i + 1].Requested?;
      assert all[i] == Opened(a) && all[i + 1] == t[i + 1];
    }
    if c.accountId == a { assert all[|t|] == more[0] && all[|t| + 1] == more[1]; }
    if Asked(all, from, a) {
      var i :| from <= i < |all| - 1 && all[i] == Opened(a) && all[i + 1].Requested?;
      assert all[|t|] == more[0];
      if i < |t| {
        assert t[i] == Opened(a);
      } else {
        assert all[i] == more[i - |t|];
      }
    }
  }

  /** This account was among those looked at, was still held, and was about to expire. */
  ghost predicate Expiring(p: Policy, b: Books, items: seq<Credentials>, wall: nat -> real, scripts: nat -> Script,
                           n: nat, a: AccountId)
    requires n <= |items|
  {
    exists i :: 0 <= i < n && items[i].accountId == a && ExpiresSoon(items[i], p.bufferSeconds, wall(i))
      && a in Checked(p, b, items, wall, scripts, i).store.accounts
  }

  /** A check asks for a new pair for exactly the accounts that were about to
      expire, as they were when it began, and are still held when their turn comes. */
  lemma {:induction false} CheckAsksIff(p: Policy, b: Books, items: seq<Credentials>, wall: nat -> real,
                                        scripts: nat -> Script, n: nat, a: AccountId)
    requires n <= |items| && WellFormed(b.store)
    ensures var b' := Checked(p, b, items, wall, scripts, n);
            && WellFormed(b'.store) && |b.trace| <= |b'.trace|
            && (Asked(b'.trace, |b.trace|, a) <==> Expiring(p, b, items, wall, scripts, n, a))
    decreases n
  {
    if n > 0 {
      CheckAsksIff(p, b, items, wall, scripts, n - 1, a);
      var before := Checked(p, b, items, wall, scripts, n - 1);
      var c := items[n - 1];
      if ExpiresSoon(c, p.bufferSeconds, wall(n - 1)) && c.accountId in before.store.accounts {
        CheckWellFormed(p, before, c.accountId, scripts(n - 1));
        TraceOpens(p, before.store.accounts[c.accountId].credentials, scripts(n - 1), before.trace, |b.trace|, a);
      }
      ExpiringOn(p, b, items, wall, scripts, n, a);
    }
  }

  lemma ExpiringOn(p: Policy, b: Books, items: seq<Credentials>, wall: nat -> real, scripts: nat -> Script,
                   n: nat, a: AccountId)
    requires 0 < n <= |items|
    ensures Expiring(p, b, items, wall, scripts, n, a) <==>
      || Expiring(p, b, items, wall, scripts, n - 1, a)
      || (items[n - 1].accountId == a && ExpiresSoon(items[n - 1], p.bufferSeconds, wall(n - 1))
          && a in Checked(p, b, items, wall, scripts, n - 1).store.accounts)
  {
  }

  // ---------------------------------------------------------------------
  // After a failed save
  // ---------------------------------------------------------------------

  lemma {:induction false} PairArrives(p: Policy, s: Store, c: Credentials, e: Script, n: nat, k: nat)
    requires n <= k < Limit(p) && e.replies(k).Pair?
    requires forall j: nat | n <= j < k :: WorthAnother(e.replies(j))
    ensures Stored(Rotated(c, e.replies(k), e.wall(k))) in Attempts(p, c, e, n)
    ensures p.persists && !e.saves ==> Rotate(p, s, c, e, n).failed
    decreases k - n
  {
    var rest := AfterReply(p, c, e, n);
    assert Attempts(p, c, e, n) == [Requested(c.refreshToken)] + rest;
    if n == k {
      assert rest[0] == Stored(Rotated(c, e.replies(k), e.wall(k)));
    } else {
      assert WorthAnother(e.replies(n));
      PairArrives(p, ApplyAll(s, e.others(n + 2)), c, e, n + 1, k);
    }
  }

  lemma {:induction false} ListedCredentials(s: Store, order: seq<AccountId>)
    requires forall i | 0 <= i < |order| :: order[i] in s.accounts
    ensures |CredentialsIn(s, order)| == |order|
    ensures forall i | 0 <= i < |order| :: CredentialsIn(s, order)[i] == s.accounts[order[i]].credentials
    decreases |order|
  {
    if order != [] {
      assert forall i | 0 <= i < |order| - 1 :: order[1..][i] == order[i + 1];
      ListedCredentials(s, order[1..]);
      assert CredentialsIn(s, order) == [s.accounts[order[0]].credentials] + CredentialsIn(s, order[1..]);
    }
  }

  /** Each account held is looked at once in a check. */
  lemma PlaceOf(s: Store, a: AccountId) returns (i: nat)
    requires WellFormed(s) && a in s.accounts
    ensures var items := AllCredentials(s);
            && i < |items| && items[i] == s.accounts[a].credentials
            && forall j | 0 <= j < |items| && items[j].accountId == a :: j == i
  {
    forall j | 0 <= j < |s.order| ensures s.order[j] in s.accounts {
      var id := s.order[j];
      assert id in s.order && id in s.accounts;
    }
    ListedCredentials(s, s.order);
    assert forall j | 0 <= j < |s.order| :: AllCredentials(s)[j].accountId == s.order[j];
    i :| 0 <= i < |s.order| && s.order[i] == a;
  }

  /** A refresh whose pair could not be saved has failed, but the store holds the
      new expiry all the same, unless another task has changed the account since.
      So if the account is still held when its turn comes in a later check, that
      check asks again exactly if the time the pair was issued for is up to the
      buffer by then. */
  lemma FailedSaveIsRetriedIff(p: Policy, b: Books, c: Credentials, e: Script, k: nat,
                               wall: nat -> real, scripts: nat -> Script, i: nat)
    requires k < Limit(p) && e.replies(k).Pair? && forall j: nat | j < k :: WorthAnother(e.replies(j))
    requires p.persists && !e.saves && WellFormed(b.store) && Holds(b.store, c)
    requires FateOf(e.others(0), c.accountId) == Untouched
    requires var s := Refreshed(p, b, c.accountId, e).store;
             i < |AllCredentials(s)| && AllCredentials(s)[i].accountId == c.accountId
    ensures var b1 := Refreshed(p, b, c.accountId, e);
            var items := AllCredentials(b1.store);
            var b2 := Checked(p, b1, items, wall, scripts, |items|);
            && b1.failures == b.failures + [c.accountId]
            && (c.accountId in Checked(p, b1, items, wall, scripts, i).store.accounts ==>
                  (Asked(b2.trace, |b1.trace|, c.accountId)
                   <==> e.replies(k).expiresIn <= p.bufferSeconds + (wall(i) - e.wall(k))))
  {
    var a := c.accountId;
    var b1 := Refreshed(p, b, a, e);
    var items := AllCredentials(b1.store);
    var pair := Rotated(c, e.replies(k), e.wall(k));
    PairArrives(p, b.store, c, e, 0, k);
    StoreHoldsTheLivePairIff(p, b.store, c, e, 0, pair);
    RotateWellFormed(p, b.store, c, e, 0);
    assert Meanwhile(p, e) == e.others(0);
    assert Holds(b1.store, pair);
    var place := PlaceOf(b1.store, a);
    assert items[i] == pair;
    CheckAsksIff(p, b1, items, wall, scripts, |items|, a);
  }

  /** With the usual hour to run and five minutes' buffer, the next check does not
      try again: the failure is announced, and then nothing is done about it. */
  lemma FailedSaveIsNotRetried(a: AccountId, scripts: nat -> Script)
    ensures var p := Policy(3, 300.0, true);
            var s := Store([a], map[a := Tracked(Credentials(a, "t", "r", 0.0), Authorized)]);
            var e := Script(_ => Pair("t2", "r2", 3600.0), _ => 0.0, false, true, NoAnswer, _ => []);
            var b := Refreshed(p, Books(s, [], []), a, e);
            var items := AllCredentials(b.store);
            && b.failures == [a] && items == [Credentials(a, "t2", "r2", 3600.0)]
            && Checked(p, b, items, _ => 60.0, scripts, |items|) == b
  {
    var p := Policy(3, 300.0, true);
    var c := Credentials(a, "t", "r", 0.0);
    var pair := Credentials(a, "t2", "r2", 3600.0);
    var s := Store([a], map[a := Tracked(c, Authorized)]);
    var e := Script(_ => Pair("t2", "r2", 3600.0), _ => 0.0, false, true, NoAnswer, _ => []);
    var held := Store([a], map[a := Tracked(pair, Authorized)]);
    assert Apply(s, Op.ReplaceCredentials(pair)) == held;
    assert Kept(p, s, pair, e) == Rotation(held, true);
    assert Rotate(p, s, c, e, 0) == Rotation(held, true);
    var b := Refreshed(p, Books(s, [], []), a, e);
    assert b.store == held;
    assert CredentialsIn(held, [a]) == [pair] + CredentialsIn(held, []);
    var items := AllCredentials(held);
    assert items == [pair];
    assert Checked(p, b, items, _ => 60.0, scripts, 0) == b;
  }
}
