/** Every account the client knows about, and the session each one holds.

    The store is an insertion-ordered dictionary: `order` is the order in which
    its keys are iterated. */
module Sessions {
  import opened Collections

  type AccountId = int

  datatype Credentials = Credentials(accountId: AccountId, accessToken: string, refreshToken: string, expiresAt: real)

  datatype Session =
    | NoSession
    | Authorized
    | AwaitingRecovery(attempts: nat, nextAttemptAt: real)

  /** A session the server has just dropped is retried at once. */
  const JUST_DROPPED := AwaitingRecovery(0, 0.0)

  datatype Tracked = Tracked(credentials: Credentials, session: Session)

  datatype Store = Store(order: seq<AccountId>, accounts: map<AccountId, Tracked>)

  const EMPTY := Store([], map[])

  /** What anything may do to the store. */
  datatype Op =
    | Authorize(credentials: Credentials)
    | ReplaceCredentials(credentials: Credentials)
    | Remove(account: AccountId)
    | InvalidateAll
    | Flag(account: AccountId)
    | Reschedule(account: AccountId, attempts: nat, nextAttemptAt: real)

  function Without(order: seq<AccountId>, a: AccountId): seq<AccountId> {
    if order == [] then []
    else if order[0] == a then Without(order[1..], a)
    else [order[0]] + Without(order[1..], a)
  }

  /** Assignment to a key: a new key goes last, a known one keeps its place. */
  function Put(s: Store, a: AccountId, t: Tracked): Store {
    Store(if a in s.accounts then s.order else s.order + [a], s.accounts[a := t])
  }

  function Apply(s: Store, op: Op): Store {
    match op
    case Authorize(c) => Put(s, c.accountId, Tracked(c, Authorized))
    case ReplaceCredentials(c) =>
      Put(s, c.accountId,
          Tracked(c, if c.accountId in s.accounts then s.accounts[c.accountId].session else NoSession))
    case Remove(a) => if a in s.accounts then Store(Without(s.order, a), s.accounts - {a}) else s
    case InvalidateAll =>
      s.(accounts := map a | a in s.accounts :: Tracked(s.accounts[a].credentials, NoSession))
    case Flag(a) =>
      if a !in s.accounts || s.accounts[a].session.AwaitingRecovery? then s
      else Put(s, a, Tracked(s.accounts[a].credentials, JUST_DROPPED))
    case Reschedule(a, attempts, next) =>
      if a !in s.accounts || !s.accounts[a].session.AwaitingRecovery? then s
      else Put(s, a, Tracked(s.accounts[a].credentials, AwaitingRecovery(attempts, next)))
  }

  predicate IsAuthorized(s: Store, a: AccountId) {
    a in s.accounts && s.accounts[a].session == Authorized
  }

  predicate IsAwaiting(s: Store, a: AccountId) {
    a in s.accounts && s.accounts[a].session.AwaitingRecovery?
  }

  /** The account is held, under these very credentials. */
  predicate Holds(s: Store, c: Credentials) {
    c.accountId in s.accounts && s.accounts[c.accountId].credentials == c
  }

  // ---------------------------------------------------------------------
  // Queries that list accounts, oldest first
  // ---------------------------------------------------------------------

  /** An account awaiting recovery, with the state its backoff was in when it was read. */
  datatype Due = Due(account: AccountId, credentials: Credentials, attempts: nat, nextAttemptAt: real)

  function AwaitingIn(s: Store, order: seq<AccountId>): seq<Due> {
    if order == [] then []
    else
      (if IsAwaiting(s, order[0])
       then
         var t := s.accounts[order[0]];
         [Due(order[0], t.credentials, t.session.attempts, t.session.nextAttemptAt)]
       else [])
      + AwaitingIn(s, order[1..])
  }

  function Awaiting(s: Store): seq<Due> { AwaitingIn(s, s.order) }

  function CredentialsIn(s: Store, order: seq<AccountId>): seq<Credentials> {
    if order == [] then []
    else (if order[0] in s.accounts then [s.accounts[order[0]].credentials] else []) + CredentialsIn(s, order[1..])
  }

  function AllCredentials(s: Store): seq<Credentials> { CredentialsIn(s, s.order) }

  // ---------------------------------------------------------------------
  // The shape every store has
  // ---------------------------------------------------------------------

  ghost predicate WellFormed(s: Store) {
    && Distinct(s.order)
    && (forall a :: a in s.order <==> a in s.accounts)
    && (forall a | a in s.accounts :: s.accounts[a].credentials.accountId == a)
  }

  lemma {:induction false} WithoutKeeps(order: seq<AccountId>, a: AccountId)
    requires Distinct(order)
    ensures Distinct(Without(order, a))
    ensures forall b :: b in Without(order, a) <==> b in order && b != a
  {
    if order != [] {
      assert order == [order[0]] + order[1..];
      WithoutKeeps(order[1..], a);
      var rest := Without(order[1..], a);
      if order[0] != a {
        assert order[0] !in order[1..];
        assert Without(order, a) == [order[0]] + rest;
      }
    }
  }

  lemma ApplyWellFormed(s: Store, op: Op)
    requires WellFormed(s)
    ensures WellFormed(Apply(s, op))
  {
    if op.Remove? { WithoutKeeps(s.order, op.account); }
  }

  // ---------------------------------------------------------------------
  // Three situations
  // ---------------------------------------------------------------------

  /** The same store as three sets of accounts. */
  datatype View = View(none: set<AccountId>, authorized: set<AccountId>, awaiting: set<AccountId>)

  function Held(v: View): set<AccountId> { v.none + v.authorized + v.awaiting }

  function ViewOf(s: Store): View {
    View(set a | a in s.accounts && s.accounts[a].session == NoSession,
         set a | IsAuthorized(s, a) && a in s.accounts,
         set a | a in s.accounts && IsAwaiting(s, a))
  }

  /** What each operation means for the three sets. */
  function ApplyView(v: View, op: Op): View {
    match op
    case Authorize(c) => View(v.none - {c.accountId}, v.authorized + {c.accountId}, v.awaiting - {c.accountId})
    case ReplaceCredentials(c) => if c.accountId in Held(v) then v else v.(none := v.none + {c.accountId})
    case Remove(a) => View(v.none - {a}, v.authorized - {a}, v.awaiting - {a})
    case InvalidateAll => View(Held(v), {}, {})
    case Flag(a) => if a in Held(v) then View(v.none - {a}, v.authorized - {a}, v.awaiting + {a}) else v
    case Reschedule(_, _, _) => v
  }

  /** An account held is in exactly one of three situations, and the store moves
      accounts between them as the three sets say: a flag needs the account to be
      held, and rescheduling, however late, moves nothing. */
  lemma StoreRefinesSets(s: Store, op: Op)
    requires WellFormed(s)
    ensures ViewOf(Apply(s, op)) == ApplyView(ViewOf(s), op)
    ensures Held(ViewOf(s)) == s.accounts.Keys
    ensures var v := ViewOf(s); v.none !! v.authorized && v.none !! v.awaiting && v.authorized !! v.awaiting
  {
    assert Held(ViewOf(s)) == s.accounts.Keys;
    forall a ensures Situation(ViewOf(Apply(s, op)), a) == Situation(ApplyView(ViewOf(s), op), a) {
      SituationOf(s, a);
      SituationOf(Apply(s, op), a);
    }
    SameView(ViewOf(Apply(s, op)), ApplyView(ViewOf(s), op));
  }

  /** Which of the sets an account is in. */
  function Situation(v: View, a: AccountId): (bool, bool, bool) { (a in v.none, a in v.authorized, a in v.awaiting) }

  lemma SituationOf(s: Store, a: AccountId)
    ensures Situation(ViewOf(s), a) ==
            (a in s.accounts && s.accounts[a].session == NoSession, IsAuthorized(s, a), IsAwaiting(s, a))
  {
  }

  lemma SameView(v: View, w: View)
    requires forall a :: Situation(v, a) == Situation(w, a)
    ensures v == w
  {
    forall a ensures (a in v.none <==> a in w.none) && (a in v.authorized <==> a in w.authorized)
                     && (a in v.awaiting <==> a in w.awaiting)
    {
      assert Situation(v, a) == Situation(w, a);
    }
    assert v.none == w.none && v.authorized == w.authorized && v.awaiting == w.awaiting;
  }

  // ---------------------------------------------------------------------
  // Oldest first
  // ---------------------------------------------------------------------

  ghost function Run(s: Store, ops: seq<Op>): Store {
    if ops == [] then s else Apply(Run(s, ops[..|ops| - 1]), ops[|ops| - 1])
  }

  /** The account an operation inserts if it is not held. */
  predicate Inserts(op: Op, a: AccountId) {
    (op.Authorize? || op.ReplaceCredentials?) && op.credentials.accountId == a
  }

  /** When a held account was last inserted: the operation that added it while it was not held. */
  ghost function InsertedAt(ops: seq<Op>, a: AccountId): int {
    if ops == [] then -1
    else
      var before := InsertedAt(ops[..|ops| - 1], a);
      var op := ops[|ops| - 1];
      if op == Remove(a) then -1
      else if before < 0 && Inserts(op, a) then |ops| - 1
      else before
  }

  ghost predicate Ascending(order: seq<AccountId>, at: AccountId -> int) {
    forall i, j | 0 <= i < j < |order| :: at(order[i]) < at(order[j])
  }

  lemma ConsAscending(first: AccountId, rest: seq<AccountId>, at: AccountId -> int)
    ensures Ascending([first] + rest, at) <==> Ascending(rest, at) && forall b | b in rest :: at(first) < at(b)
  {
    var all := [first] + rest;
    if Ascending(all, at) {
      forall i, j | 0 <= i < j < |rest| ensures at(rest[i]) < at(rest[j]) {
        assert at(all[i + 1]) < at(all[j + 1]);
      }
      forall b | b in rest ensures at(first) < at(b) {
        var i :| 0 <= i < |rest| && rest[i] == b;
        assert at(all[0]) < at(all[i + 1]);
      }
    }
    if Ascending(rest, at) && forall b | b in rest :: at(first) < at(b) {
      forall i, j | 0 <= i < j < |all| ensures at(all[i]) < at(all[j]) {
        assert all[j] == rest[j - 1];
        if i > 0 { assert all[i] == rest[i - 1]; }
      }
    }
  }

  lemma {:induction false} WithoutAscending(order: seq<AccountId>, a: AccountId, at: AccountId -> int)
    requires Ascending(order, at)
    ensures Ascending(Without(order, a), at)
    ensures forall b | b in Without(order, a) :: b in order && b != a
  {
    if order != [] {
      assert order == [order[0]] + order[1..];
      ConsAscending(order[0], order[1..], at);
      WithoutAscending(order[1..], a, at);
      ConsAscending(order[0], Without(order[1..], a), at);
    }
  }

  lemma InsertedBound(ops: seq<Op>, a: AccountId)
    ensures -1 <= InsertedAt(ops, a) < |ops|
  {
  }

  ghost predicate OldestFirst(order: seq<AccountId>, ops: seq<Op>) {
    && (forall a :: a in order <==> InsertedAt(ops, a) >= 0)
    && Ascending(order, a => InsertedAt(ops, a))
  }

  lemma InsertStep(order: seq<AccountId>, ops: seq<Op>, op: Op)
    requires OldestFirst(order, ops) && !op.Remove?
    ensures var a := if op.Authorize? || op.ReplaceCredentials? then op.credentials.accountId else 0;
            OldestFirst(if Inserts(op, a) && a !in order then order + [a] else order, ops + [op])
  {
    var a := if op.Authorize? || op.ReplaceCredentials? then op.credentials.accountId else 0;
    forall b ensures InsertedAt(ops + [op], b) == if b !in order && Inserts(op, b) then |ops| else InsertedAt(ops, b) {
      InsertedOn(ops, op, b);
    }
    StillAscending(order, ops, op);
    if Inserts(op, a) && a !in order {
      forall i | 0 <= i < |order| ensures InsertedAt(ops + [op], order[i]) < InsertedAt(ops + [op], a) {
        assert order[i] in order;
        InsertedBound(ops, order[i]);
      }
      AscendingOn(order, a, b => InsertedAt(ops + [op], b));
    }
  }

  lemma StillAscending(order: seq<AccountId>, ops: seq<Op>, op: Op)
    requires OldestFirst(order, ops) && !op.Remove?
    ensures Ascending(order, b => InsertedAt(ops + [op], b))
  {
    var before, after := b => InsertedAt(ops, b), b => InsertedAt(ops + [op], b);
    forall i | 0 <= i < |order| ensures after(order[i]) == before(order[i]) {
      assert order[i] in order;
      InsertedOn(ops, op, order[i]);
    }
  }

  lemma InsertedOn(ops: seq<Op>, op: Op, b: AccountId)
    requires !op.Remove?
    ensures InsertedAt(ops + [op], b) == if InsertedAt(ops, b) < 0 && Inserts(op, b) then |ops| else InsertedAt(ops, b)
    ensures InsertedAt(ops, b) < |ops|
  {
    assert (ops + [op])[..|ops|] == ops;
    InsertedBound(ops, b);
  }

  lemma AscendingOn(order: seq<AccountId>, a: AccountId, at: AccountId -> int)
    requires Ascending(order, at) && forall i | 0 <= i < |order| :: at(order[i]) < at(a)
    ensures Ascending(order + [a], at)
  {
  }

  lemma RemoveStep(order: seq<AccountId>, ops: seq<Op>, a: AccountId)
    requires OldestFirst(order, ops) && Distinct(order)
    ensures OldestFirst(Without(order, a), ops + [Remove(a)])
  {
    assert (ops + [Remove(a)])[..|ops|] == ops;
    var before, after := b => InsertedAt(ops, b), b => InsertedAt(ops + [Remove(a)], b);
    forall b ensures after(b) == if b == a then -1 else before(b) { }
    WithoutKeeps(order, a);
    WithoutAscending(order, a, before);
    assert Ascending(Without(order, a), after);
  }

  lemma WithoutAbsent(order: seq<AccountId>, a: AccountId)
    requires a !in order
    ensures Without(order, a) == order
  {
    if order != [] { assert order[0] != a; WithoutAbsent(order[1..], a); }
  }

  /** The store lists accounts by when they were first inserted, through every
      replacement, flag and invalidation; only removal makes an account forget
      its place. */
  lemma {:induction false} ListedOldestFirst(ops: seq<Op>)
    ensures WellFormed(Run(EMPTY, ops)) && OldestFirst(Run(EMPTY, ops).order, ops)
  {
    if ops != [] {
      var before := ops[..|ops| - 1];
      var op := ops[|ops| - 1];
      var s := Run(EMPTY, before);
      ListedOldestFirst(before);
      ApplyWellFormed(s, op);
      assert ops == before + [op];
      if op.Remove? {
        RemoveStep(s.order, before, op.account);
        if op.account !in s.order { WithoutAbsent(s.order, op.account); }
      } else {
        InsertStep(s.order, before, op);
      }
    }
  }
}
