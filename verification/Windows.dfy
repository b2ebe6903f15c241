/** Refresh windows: while an account's authorization is being replaced, anyone
    with a question about it waits for an event that settles the matter. */
module Windows {
  import opened Sessions

  type TaskId = nat
  type EventId = nat

  /** A task waiting for one window on one account to close. */
  datatype Waiter = Waiter(account: AccountId, settled: EventId)

  datatype State = State(
    refreshing: map<AccountId, EventId>,
    nextEvent: EventId,
    raised: set<EventId>,
    waiters: map<TaskId, Waiter>)

  const START := State(map[], 0, {}, map[])

  datatype Event =
    | Begin(account: AccountId)
    | End(account: AccountId)
    | Wait(task: TaskId, account: AccountId)
    | Resume(task: TaskId)

  function BeginRefresh(s: State, a: AccountId): State {
    if a in s.refreshing then s
    else s.(refreshing := s.refreshing[a := s.nextEvent], nextEvent := s.nextEvent + 1)
  }

  function EndRefresh(s: State, a: AccountId): State {
    if a !in s.refreshing then s
    else s.(refreshing := s.refreshing - {a}, raised := s.raised + {s.refreshing[a]})
  }

  /** With no window open there is nothing to wait for. */
  function WaitForRefresh(s: State, t: TaskId, a: AccountId): State {
    if a !in s.refreshing then s
    else s.(waiters := s.waiters[t := Waiter(a, s.refreshing[a])])
  }

  predicate Enabled(s: State, e: Event) {
    match e
    case Wait(t, _) => t !in s.waiters
    case Resume(t) => t in s.waiters && s.waiters[t].settled in s.raised
    case _ => true
  }

  function Next(s: State, e: Event): State
    requires Enabled(s, e)
  {
    match e
    case Begin(a) => BeginRefresh(s, a)
    case End(a) => EndRefresh(s, a)
    case Wait(t, a) => WaitForRefresh(s, t, a)
    case Resume(t) => s.(waiters := s.waiters - {t})
  }

  ghost predicate Legal(s: State, es: seq<Event>)
    decreases es
  {
    es == [] || (Enabled(s, es[0]) && Legal(Next(s, es[0]), es[1..]))
  }

  ghost function Exec(s: State, es: seq<Event>): State
    requires Legal(s, es)
    decreases es
  {
    if es == [] then s else Exec(Next(s, es[0]), es[1..])
  }

  /** An event some waiter holds is unset only while it is the very event its
      account's window will set. */
  ghost predicate NoneForgotten(s: State) {
    forall t | t in s.waiters ::
      var w := s.waiters[t];
      w.settled !in s.raised <==> w.account in s.refreshing && s.refreshing[w.account] == w.settled
  }

  ghost predicate Inv(s: State) {
    && NoneForgotten(s)
    && (forall a | a in s.refreshing :: s.refreshing[a] < s.nextEvent && s.refreshing[a] !in s.raised)
    && (forall a, b | a in s.refreshing && b in s.refreshing && s.refreshing[a] == s.refreshing[b] :: a == b)
    && (forall v | v in s.raised :: v < s.nextEvent)
    && (forall t | t in s.waiters :: s.waiters[t].settled < s.nextEvent)
    && (forall t, a | t in s.waiters && a in s.refreshing && s.refreshing[a] == s.waiters[t].settled :: a == s.waiters[t].account)
  }

  lemma {:induction false} RunInv(s: State, es: seq<Event>)
    requires Inv(s) && Legal(s, es)
    ensures Inv(Exec(s, es))
    decreases es
  {
    if es != [] {
      RunInv(Next(s, es[0]), es[1..]);
    }
  }

  // ---------------------------------------------------------------------
  // The story of a task, on the events of a run
  // ---------------------------------------------------------------------

  /** Whether a window on the account has been begun, and not ended since. */
  ghost function IsOpen(es: seq<Event>, a: AccountId): bool {
    if es == [] then false
    else if es[|es| - 1] == Begin(a) then true
    else if es[|es| - 1] == End(a) then false
    else IsOpen(es[..|es| - 1], a)
  }

  datatype Story = Idle | Blocked(account: AccountId) | Free(account: AccountId)

  /** A task that comes to wait is blocked if a window is open, until one ends, and
      then free to resume. */
  ghost function StoryOf(es: seq<Event>, t: TaskId): Story {
    if es == [] then Idle
    else
      var before := StoryOf(es[..|es| - 1], t);
      match es[|es| - 1]
      case Wait(u, a) => if u != t then before else if IsOpen(es[..|es| - 1], a) then Blocked(a) else Idle
      case End(a) => if before == Blocked(a) then Free(a) else before
      case Resume(u) => if u == t then Idle else before
      case Begin(_) => before
  }

  lemma {:induction false} Snoc(s: State, es: seq<Event>)
    requires Legal(s, es) && es != []
    ensures var before, last := es[..|es| - 1], es[|es| - 1];
            && Legal(s, before) && Enabled(Exec(s, before), last)
            && Exec(s, es) == Next(Exec(s, before), last)
    decreases |es|
  {
    if |es| == 1 {
      assert es[..0] == [] && es[1..] == [];
    } else {
      var rest := es[1..];
      Snoc(Next(s, es[0]), rest);
      assert es[..|es| - 1] == [es[0]] + rest[..|rest| - 1];
      assert ([es[0]] + rest[..|rest| - 1])[1..] == rest[..|rest| - 1];
    }
  }

  ghost predicate Tells(s: State, t: TaskId, story: Story) {
    && (t in s.waiters <==> story != Idle)
    && (t in s.waiters ==> s.waiters[t].account == story.account && (story.Free? <==> s.waiters[t].settled in s.raised))
  }

  ghost predicate Shows(s: State, es: seq<Event>) { forall a :: a in s.refreshing <==> IsOpen(es, a) }

  lemma StepTells(s: State, e: Event, es: seq<Event>, t: TaskId)
    requires Inv(s) && Enabled(s, e) && Tells(s, t, StoryOf(es, t))
    requires Shows(s, es)
    ensures Tells(Next(s, e), t, StoryOf(es + [e], t)) && Shows(Next(s, e), es + [e])
  {
    assert (es + [e])[..|es|] == es;
  }

  lemma {:induction false} RunTells(es: seq<Event>, t: TaskId)
    requires Legal(START, es)
    ensures Tells(Exec(START, es), t, StoryOf(es, t)) && Shows(Exec(START, es), es)
    decreases |es|
  {
    if es != [] {
      var before, last := es[..|es| - 1], es[|es| - 1];
      Snoc(START, es);
      RunTells(before, t);
      LastTells(before, last, t);
      assert es == before + [last];
    }
  }

  lemma LastTells(before: seq<Event>, last: Event, t: TaskId)
    requires Legal(START, before) && Enabled(Exec(START, before), last)
    requires Tells(Exec(START, before), t, StoryOf(before, t)) && Shows(Exec(START, before), before)
    ensures Tells(Next(Exec(START, before), last), t, StoryOf(before + [last], t))
    ensures Shows(Next(Exec(START, before), last), before + [last])
  {
    RunInv(START, before);
    StepTells(Exec(START, before), last, before, t);
  }

  /** In every run, a task waits exactly if it found a window open when it came to,
      and has not resumed; and it can resume exactly if a window on that account has
      ended since. */
  lemma WaitsForTheWindow(es: seq<Event>, t: TaskId, a: AccountId)
    requires Legal(START, es)
    ensures var s, story := Exec(START, es), StoryOf(es, t);
            && (a in s.refreshing <==> IsOpen(es, a))
            && (t in s.waiters <==> story != Idle)
            && (Enabled(s, Resume(t)) <==> story.Free?)
  {
    RunTells(es, t);
  }

  /** For every interleaving of windows and waiters, a waiter can resume exactly
      when the window it found open has closed, whether or not another has
      opened since; and closing a window releases everyone waiting on the account. */
  lemma WaitersAreReleased(es: seq<Event>, t: TaskId)
    requires Legal(START, es) && t in Exec(START, es).waiters
    ensures var s := Exec(START, es);
            var w := s.waiters[t];
            && (Enabled(s, Resume(t)) <==> !(w.account in s.refreshing && s.refreshing[w.account] == w.settled))
            && Enabled(EndRefresh(s, w.account), Resume(t))
  {
    RunInv(START, es);
  }
}
