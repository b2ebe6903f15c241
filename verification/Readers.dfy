/** The reader tasks of a protocol. A pass of the reconnection cancels the reader
    it can see, which is the last to have begun; one spawned and not yet begun it
    cannot see, and that one lives on until it finds its stream gone. */
module Readers {

  type ReaderId = nat

  datatype State = State(
    readers: set<ReaderId>,       // spawned, and not ended or cancelled
    scope: set<ReaderId>,         // the one that can be cancelled, once it has begun
    stragglers: set<ReaderId>,    // those that the last pass failed to cancel
    passing: bool,                // a pass has begun and not connected
    next: ReaderId)

  const START := State({0}, {}, {}, false, 1)

  datatype Event =
    | Begins(reader: ReaderId)
    | Ends(reader: ReaderId)
    | PassBegins
    | Connects                    // and a reader is spawned on the new stream
    | ServeExits
    | ServesAgain

  predicate Enabled(s: State, e: Event) {
    match e
    case Begins(r) => r in s.readers
    case Ends(r) => r in s.readers
    case PassBegins => true
    case Connects => s.passing
    case ServeExits => s.readers == {}
    case ServesAgain => s.readers == {}
  }

  function Cancel(s: State): State {
    s.(readers := s.readers - s.scope, scope := {}, stragglers := s.readers - s.scope, passing := true)
  }

  function Spawn(s: State): State {
    s.(readers := s.readers + {s.next}, stragglers := {}, passing := false, next := s.next + 1)
  }

  function Next(s: State, e: Event): State
    requires Enabled(s, e)
  {
    match e
    case Begins(r) => s.(scope := {r})
    case Ends(r) => s.(readers := s.readers - {r}, stragglers := s.stragglers - {r})
    case PassBegins => Cancel(s)
    case Connects => Spawn(s)
    case ServeExits => s.(scope := {})
    case ServesAgain => Spawn(s)
  }

  ghost predicate Legal(s: State, es: seq<Event>)
    decreases |es|
  {
    es == [] || (Enabled(s, es[0]) && Legal(Next(s, es[0]), es[1..]))
  }

  ghost function Exec(s: State, es: seq<Event>): State
    requires Legal(s, es)
    decreases |es|
  {
    if es == [] then s else Exec(Next(s, es[0]), es[1..])
  }

  // ---------------------------------------------------------------------
  // A reader on every stream
  // ---------------------------------------------------------------------

  /** A step that makes the link live. */
  predicate GoesLive(e: Event) { e.Connects? || e.ServesAgain? }

  /** A step that a reader does not outlive. */
  predicate Stops(e: Event, r: ReaderId) { e.PassBegins? || e == Ends(r) }

  ghost predicate Numbered(s: State) { forall r | r in s.readers :: r < s.next }

  /** Readers are numbered in the order of their spawning, and no number comes back. */
  lemma {:induction false} NumbersGoUp(s: State, es: seq<Event>)
    requires Legal(s, es) && Numbered(s)
    ensures Numbered(Exec(s, es)) && s.next <= Exec(s, es).next
    decreases |es|
  {
    if es != [] { NumbersGoUp(Next(s, es[0]), es[1..]); }
  }

  lemma {:induction false} OutlivesTheRest(s: State, es: seq<Event>, r: ReaderId)
    requires Legal(s, es) && r in s.readers && forall e | e in es :: !Stops(e, r)
    ensures r in Exec(s, es).readers
    decreases |es|
  {
    if es != [] {
      assert es[0] in es && forall e | e in es[1..] :: e in es;
      OutlivesTheRest(Next(s, es[0]), es[1..], r);
    }
  }

  /** `r` was alive at some point of this run. */
  ghost predicate WasAlive(s: State, es: seq<Event>, r: ReaderId)
    requires Legal(s, es)
    decreases |es|
  {
    r in s.readers || (es != [] && WasAlive(Next(s, es[0]), es[1..], r))
  }

  lemma {:induction false} AliveWasNumbered(s: State, es: seq<Event>, r: ReaderId)
    requires Legal(s, es) && Numbered(s) && WasAlive(s, es, r)
    ensures r < Exec(s, es).next
    decreases |es|
  {
    NumbersGoUp(s, es);
    if r !in s.readers { AliveWasNumbered(Next(s, es[0]), es[1..], r); }
  }

  /** In every run, each time the link goes live exactly one reader is added, which
      was never alive before; and it reads on until it ends or the next pass begins. */
  lemma LiveLinkIsRead(es: seq<Event>, e: Event)
    requires Legal(START, es) && Enabled(Exec(START, es), e) && GoesLive(e)
    ensures var s, s' := Exec(START, es), Next(Exec(START, es), e);
            exists r :: s'.readers == s.readers + {r} && !WasAlive(START, es, r)
              && forall more | Legal(s', more) && (forall x | x in more :: !Stops(x, r)) :: r in Exec(s', more).readers
  {
    var s := Exec(START, es);
    var s', r := Next(s, e), s.next;
    if WasAlive(START, es, r) { AliveWasNumbered(START, es, r); }
    forall more | Legal(s', more) && (forall x | x in more :: !Stops(x, r)) ensures r in Exec(s', more).readers {
      OutlivesTheRest(s', more, r);
    }
    assert s'.readers == s.readers + {r};
  }

  // ---------------------------------------------------------------------
  // Which reader a pass cancels
  // ---------------------------------------------------------------------

  /** The reader that was last to begin, since the last pass or the last serve. */
  ghost function LastBegun(es: seq<Event>): set<ReaderId> {
    if es == [] then {}
    else
      match es[|es| - 1]
      case Begins(r) => {r}
      case PassBegins => {}
      case ServeExits => {}
      case _ => LastBegun(es[..|es| - 1])
  }

  lemma {:induction false} Snoc(s: State, es: seq<Event>)
    requires Legal(s, es) && es != []
    ensures var before, last := es[..|es| - 1], es[|es| - 1];
            && Legal(s, before) && Enabled(Exec(s, before), last)
            && Exec(s, es) == Next(Exec(s, before), last)
    decreases |es|
  {
    if |es| == 1 {
      assert es[..0] == [] && es[1..] == [];
    } else {
      var rest := es[1..];
      Snoc(Next(s, es[0]), rest);
      assert es[..|es| - 1] == [es[0]] + rest[..|rest| - 1];
      assert ([es[0]] + rest[..|rest| - 1])[1..] == rest[..|rest| - 1];
    }
  }

  lemma {:induction false} ScopeIsLastBegun(es: seq<Event>)
    requires Legal(START, es)
    ensures Exec(START, es).scope == LastBegun(es)
    decreases |es|
  {
    if es != [] {
      Snoc(START, es);
      ScopeIsLastBegun(es[..|es| - 1]);
    }
  }

  /** A pass cancels the reader that was last to begin, and no other: one that has
      been spawned and has yet to begin lives on. */
  lemma PassCancelsTheLastBegun(es: seq<Event>)
    requires Legal(START, es)
    ensures Next(Exec(START, es), PassBegins).readers == Exec(START, es).readers - LastBegun(es)
  {
    ScopeIsLastBegun(es);
  }

  // ---------------------------------------------------------------------
  // One reader on the stream
  // ---------------------------------------------------------------------

  ghost predicate Single(s: State) { forall r, q | r in s.readers && q in s.readers :: r == q }

  ghost predicate AlwaysSingle(s: State, es: seq<Event>)
    requires Legal(s, es)
    decreases |es|
  {
    Single(s) && (es != [] ==> AlwaysSingle(Next(s, es[0]), es[1..]))
  }

  /** Each reader has begun by the time the next pass comes to cancel it, or has
      ended by the time that pass connects. */
  ghost predicate NoStragglers(s: State, es: seq<Event>)
    requires Legal(s, es)
    decreases |es|
  {
    es != [] ==> (es[0].Connects? ==> s.stragglers == {}) && NoStragglers(Next(s, es[0]), es[1..])
  }

  ghost predicate Inv(s: State) {
    && Single(s)
    && (forall r | r in s.readers :: r < s.next)
    && s.stragglers <= s.readers
    && (s.passing ==> s.readers == s.stragglers)
  }

  lemma StepInv(s: State, e: Event)
    requires Inv(s) && Enabled(s, e)
    ensures Single(Next(s, e)) <==> (e.Connects? ==> s.stragglers == {})
    ensures Single(Next(s, e)) ==> Inv(Next(s, e))
  {
    var s' := Next(s, e);
    assert forall r | r in s'.readers :: r in s.readers || r == s.next;
    if e.Connects? && s.stragglers != {} {
      var r :| r in s.stragglers;
      assert r in s'.readers && s.next in s'.readers && r < s.next;
    }
  }

  lemma {:induction false} SingleIff(s: State, es: seq<Event>)
    requires Inv(s) && Legal(s, es)
    ensures AlwaysSingle(s, es) <==> NoStragglers(s, es)
    decreases |es|
  {
    if es != [] {
      StepInv(s, es[0]);
      if Single(Next(s, es[0])) { SingleIff(Next(s, es[0]), es[1..]); }
    }
  }

  /** In every run, two readers are never alive at once exactly as long as no
      straggler of a pass is left when that pass connects. */
  lemma OneReaderIff(es: seq<Event>)
    requires Legal(START, es)
    ensures AlwaysSingle(START, es) <==> NoStragglers(START, es)
  {
    SingleIff(START, es);
  }

  /** Passes come only to readers that have begun. */
  ghost predicate Prompt(s: State, es: seq<Event>)
    requires Legal(s, es)
    decreases |es|
  {
    es != [] ==> (es[0].PassBegins? ==> s.readers <= s.scope) && Prompt(Next(s, es[0]), es[1..])
  }

  lemma {:induction false} PromptLeavesNone(s: State, es: seq<Event>)
    requires Legal(s, es) && s.stragglers == {} && Prompt(s, es)
    ensures NoStragglers(s, es)
    decreases |es|
  {
    if es != [] { PromptLeavesNone(Next(s, es[0]), es[1..]); }
  }

  /** So a reader that always begins before the next pass is always alone. */
  lemma BegunReadersAreAlone(es: seq<Event>)
    requires Legal(START, es) && Prompt(START, es)
    ensures AlwaysSingle(START, es)
  {
    PromptLeavesNone(START, es);
    OneReaderIff(es);
  }

  // ---------------------------------------------------------------------
  // The reader tasks as an object
  // ---------------------------------------------------------------------

  class ReaderTasks {
    var alive: set<ReaderId>
    var scope: set<ReaderId>
    var next: ReaderId
    ghost var stragglers: set<ReaderId>
    ghost var passing: bool

    ghost function Model(): State
      reads this
    {
      State(alive, scope, stragglers, passing, next)
    }

    constructor ()
      ensures Model() == START
    {
      alive, scope, next, stragglers, passing := {0}, {}, 1, {}, false;
    }

    /** A reader's first step. */
    method Begin(r: ReaderId)
      requires Enabled(Model(), Begins(r))
      modifies this
      ensures Model() == Next(old(Model()), Begins(r))
    {
      scope := {r};
    }

    method End(r: ReaderId)
      requires Enabled(Model(), Ends(r))
      modifies this
      ensures Model() == Next(old(Model()), Ends(r))
    {
      alive := alive - {r};
      stragglers := stragglers - {r};
    }

    /** Only a reader that has begun can be cancelled; one spawned and not yet begun lives on. */
    method CancelBegun()
      modifies this
      ensures Model() == Next(old(Model()), PassBegins)
    {
      alive, scope := alive - scope, {};
      stragglers, passing := alive, true;
    }

    method SpawnReader()
      modifies this
      ensures Model() == Spawn(old(Model()))
    {
      alive, next := alive + {next}, next + 1;
      stragglers, passing := {}, false;
    }

    method ForgetScope()
      requires Enabled(Model(), ServeExits)
      modifies this
      ensures Model() == Next(old(Model()), ServeExits)
    {
      scope := {};
    }
  }
}
