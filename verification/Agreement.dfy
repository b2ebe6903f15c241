/** The client's record of standing subscriptions against the server session it
    describes, over sessions that come and go and replays that fail part-way.

    A request and its answer are one step. A replay is many, and the user's own
    calls, the loss of the session and the next replay may fall between them. */
module Agreement {
  import opened Collections
  import opened Subscriptions

  type TaskId = nat

  /** Where a replay stands: the request it is waiting on, and what is to follow. */
  datatype Stage =
    | Spots(symbols: seq<SymbolId>)
    | Bars(todo: seq<Trendbar>)
    | Depth(symbols: seq<SymbolId>)

  /** A replay belongs to the session it was started for. */
  datatype Replaying = Replaying(session: nat, stage: Stage)

  datatype State = State(
    record: Subs,
    server: Subs,
    live: bool,
    session: nat,
    begun: bool,             // a replay onto the current session has begun
    failed: bool,            // and one has failed
    replays: map<TaskId, Replaying>)

  const START := State(NONE, NONE, false, 0, false, false, map[])

  datatype Event =
    | Called(request: Request, ok: bool)           // a call by the user, answered
    | SessionLost
    | SessionEstablished                           // empty, as any session begins
    | ReplayBegun(task: TaskId)
    | TokenRefreshed                               // the session is renewed in place
    | Answered(task: TaskId, ok: bool)             // the request a replay is waiting on

  /** The next stage of a replay, if there is one, given the record as it is now. */
  ghost function FromSpots(record: Subs): seq<Stage> {
    if record.spots != {} then [Spots(Listed(record.spots))] else FromBars(record, ListedBars(record.trendbars))
  }

  ghost function FromBars(record: Subs, todo: seq<Trendbar>): seq<Stage> {
    if todo != [] then [Bars(todo)]
    else if record.depth != {} then [Depth(Listed(record.depth))]
    else []
  }

  ghost function After(record: Subs, stage: Stage): seq<Stage> {
    match stage
    case Spots(_) => FromBars(record, ListedBars(record.trendbars))
    case Bars(todo) => if todo == [] then [] else FromBars(record, todo[1..])
    case Depth(_) => []
  }

  function RequestOf(stage: Stage): Request
    requires stage.Bars? ==> stage.todo != []
  {
    match stage
    case Spots(ids) => SubscribeSpots(ids)
    case Bars(todo) => SubscribeTrendbars(todo[0])
    case Depth(ids) => SubscribeDepth(ids)
  }

  ghost function Continue(s: State, t: TaskId, session: nat, next: seq<Stage>): State {
    s.(replays := if next == [] then s.replays - {t} else s.replays[t := Replaying(session, next[0])])
  }

  /** A request can only be accepted on the session it was sent to. */
  ghost predicate Enabled(s: State, e: Event) {
    match e
    case Called(_, ok) => ok ==> s.live
    case SessionLost => s.live
    case SessionEstablished => !s.live
    case ReplayBegun(t) => s.live && t !in s.replays
    case TokenRefreshed => s.live
    case Answered(t, ok) =>
      && t in s.replays
      && (s.replays[t].stage.Bars? ==> s.replays[t].stage.todo != [])
      && (ok ==> s.live && s.replays[t].session == s.session)
  }

  ghost function Next(s: State, e: Event): State
    requires Enabled(s, e)
  {
    match e
    case Called(r, ok) => if ok then s.(record := Effect(s.record, r), server := Effect(s.server, r)) else s
    case SessionLost => s.(server := NONE, live := false)
    case SessionEstablished => s.(server := NONE, live := true, session := s.session + 1, begun := false, failed := false)
    case ReplayBegun(t) => Continue(s.(begun := true), t, s.session, FromSpots(s.record))
    case TokenRefreshed => s
    case Answered(t, ok) =>
      var r := s.replays[t];
      if ok then
        var request := RequestOf(r.stage);
        var s1 := s.(record := Effect(s.record, request), server := Effect(s.server, request));
        Continue(s1, t, r.session, After(s1.record, r.stage))
      else
        s.(failed := s.failed || r.session == s.session, replays := s.replays - {t})
  }

  ghost predicate Legal(s: State, es: seq<Event>)
    decreases es
  {
    es == [] || (Enabled(s, es[0]) && Legal(Next(s, es[0]), es[1..]))
  }

  ghost function Exec(s: State, es: seq<Event>): State
    requires Legal(s, es)
    decreases es
  {
    if es == [] then s else Exec(Next(s, es[0]), es[1..])
  }

  // ---------------------------------------------------------------------
  // Agreement
  // ---------------------------------------------------------------------

  /** What is still missing from the server is what the replay has yet to send. */
  ghost predicate Covers(stage: Stage, record: Subs, server: Subs) {
    match stage
    case Spots(ids) => record.spots <= server.spots + Elements(ids)
    case Bars(todo) => record.spots <= server.spots && record.trendbars <= server.trendbars + Elements(todo)
    case Depth(ids) =>
      record.spots <= server.spots && record.trendbars <= server.trendbars && record.depth <= server.depth + Elements(ids)
  }

  ghost predicate Current(s: State, t: TaskId) { t in s.replays && s.replays[t].session == s.session }

  ghost predicate Inv(s: State) {
    && Within(s.server, s.record)
    && (!s.live ==> s.server == NONE)
    && (forall t | t in s.replays :: s.replays[t].session <= s.session)
    && (!s.begun ==> forall t :: !Current(s, t))
    && (forall t | t in s.replays && s.replays[t].stage.Bars? :: s.replays[t].stage.todo != [])
    && (s.live && !s.failed ==> forall t | Current(s, t) :: Covers(s.replays[t].stage, s.record, s.server))
    && (s.live && s.begun && !s.failed && (forall t :: !Current(s, t)) ==> s.server == s.record)
  }

  lemma EffectCovers(stage: Stage, record: Subs, server: Subs, r: Request)
    requires Covers(stage, record, server)
    ensures Covers(stage, Effect(record, r), Effect(server, r))
  {
  }

  lemma EffectWithin(record: Subs, server: Subs, r: Request)
    requires Within(server, record)
    ensures Within(Effect(server, r), Effect(record, r))
  {
  }

  /** Once the request of a stage is accepted, the stages that remain cover what is missing. */
  lemma StageDone(stage: Stage, record: Subs, server: Subs)
    requires Within(server, record) && Covers(stage, record, server)
    requires stage.Bars? ==> stage.todo != []
    ensures var record', server' := Effect(record, RequestOf(stage)), Effect(server, RequestOf(stage));
            var next := After(record', stage);
            && |next| <= 1
            && (next != [] ==> Covers(next[0], record', server') && (next[0].Bars? ==> next[0].todo != []))
            && (next == [] ==> server' == record')
  {
    var record', server' := Effect(record, RequestOf(stage)), Effect(server, RequestOf(stage));
    EffectWithin(record, server, RequestOf(stage));
    WholeReplayLists(record');
    match stage
    case Spots(_) =>
      assert record'.spots <= server'.spots;
      BarsCover(record', server', ListedBars(record'.trendbars));
    case Bars(todo) =>
      assert todo == [todo[0]] + todo[1..];
      assert record'.trendbars <= server'.trendbars + Elements(todo[1..]);
      BarsCover(record', server', todo[1..]);
    case Depth(_) =>
      assert record'.depth <= server'.depth;
  }

  lemma BarsCover(record: Subs, server: Subs, todo: seq<Trendbar>)
    requires Within(server, record) && record.spots <= server.spots
    requires record.trendbars <= server.trendbars + Elements(todo)
    ensures var next := FromBars(record, todo);
            && |next| <= 1
            && (next != [] ==> Covers(next[0], record, server) && (next[0].Bars? ==> next[0].todo != []))
            && (next == [] ==> server == record)
  {
    WholeReplayLists(record);
  }

  lemma CalledInv(s: State, r: Request)
    requires Inv(s) && s.live
    ensures Inv(Next(s, Called(r, true)))
  {
    var s' := Next(s, Called(r, true));
    EffectWithin(s.record, s.server, r);
    forall t | s.live && !s.failed && Current(s', t) ensures Covers(s'.replays[t].stage, s'.record, s'.server) {
      assert Current(s, t);
      EffectCovers(s.replays[t].stage, s.record, s.server, r);
    }
    assert forall t :: Current(s', t) <==> Current(s, t);
  }

  lemma BegunInv(s: State, t: TaskId)
    requires Inv(s) && Enabled(s, ReplayBegun(t))
    ensures Inv(Next(s, ReplayBegun(t)))
  {
    var s' := Next(s, ReplayBegun(t));
    var next := FromSpots(s.record);
    WholeReplayLists(s.record);
    if s.record.spots == {} { BarsCover(s.record, s.server, ListedBars(s.record.trendbars)); }
    assert forall u :: u in s'.replays <==> u in s.replays || (u == t && next != []);
    assert forall u | u != t :: Current(s', u) <==> Current(s, u);
    if next != [] { assert Current(s', t); }
  }

  lemma AnsweredInv(s: State, t: TaskId)
    requires Inv(s) && Enabled(s, Answered(t, true))
    ensures Inv(Next(s, Answered(t, true)))
  {
    var s' := Next(s, Answered(t, true));
    var stage := s.replays[t].stage;
    assert Current(s, t);
    EffectWithin(s.record, s.server, RequestOf(stage));
    if !s.failed { StageDone(stage, s.record, s.server); }
    var next := After(s'.record, stage);
    assert forall u :: u in s'.replays <==> u in s.replays && (u != t || next != []);
    assert forall u | u != t :: Current(s', u) <==> Current(s, u);
    forall u | Current(s', u) && u != t && !s.failed
      ensures Covers(s'.replays[u].stage, s'.record, s'.server)
    {
      EffectCovers(s.replays[u].stage, s.record, s.server, RequestOf(stage));
    }
    if next != [] { assert Current(s', t); }
  }

  lemma StepInv(s: State, e: Event)
    requires Inv(s) && Enabled(s, e)
    ensures Inv(Next(s, e))
  {
    match e
    case Called(r, ok) => if ok { CalledInv(s, r); }
    case SessionLost => assert forall t :: Current(Next(s, e), t) <==> Current(s, t);
    case SessionEstablished => assert forall t :: !Current(Next(s, e), t);
    case ReplayBegun(t) => BegunInv(s, t);
    case TokenRefreshed =>
    case Answered(t, ok) =>
      if ok {
        AnsweredInv(s, t);
      } else {
        var s' := Next(s, e);
        assert forall u :: Current(s', u) <==> Current(s, u) && u != t;
      }
  }

  lemma {:induction false} RunInv(s: State, es: seq<Event>)
    requires Inv(s) && Legal(s, es)
    ensures Inv(Exec(s, es))
    decreases es
  {
    if es != [] {
      StepInv(s, es[0]);
      RunInv(Next(s, es[0]), es[1..]);
    }
  }

  /** Across any mix of calls, lost sessions, renewed tokens and replays, the
      server never holds a subscription the record lacks; and a live session
      holds all of them once its replays are over, unless one of them failed. */
  lemma RecordAgreesWithServer(es: seq<Event>)
    requires Legal(START, es)
    ensures var s := Exec(START, es);
            && Within(s.server, s.record)
            && (s.live && s.begun && !s.failed && (forall t :: !Current(s, t)) ==> s.server == s.record)
  {
    RunInv(START, es);
  }

  // ---------------------------------------------------------------------
  // What is on record is what was asked for
  // ---------------------------------------------------------------------

  /** An accepted call takes effect at once, on record and at the server; one that
      is refused on neither. */
  lemma CallTakesEffect(s: State, r: Request, ok: bool, i: Item)
    requires Enabled(s, Called(r, ok))
    ensures var s' := Next(s, Called(r, ok));
            && (Has(s'.record, i) <==> (ok && Adds(r, i)) || (Has(s.record, i) && !(ok && Removes(r, i))))
            && (Has(s'.server, i) <==> (ok && Adds(r, i)) || (Has(s.server, i) && !(ok && Removes(r, i))))
  {
    RequestsChange(s.record, r, i);
    RequestsChange(s.server, r, i);
  }

  /** An accepted call that takes the item off the record. */
  predicate TakesOff(e: Event, i: Item) { e.Called? && e.ok && Removes(e.request, i) }

  predicate PutsOn(e: Event, i: Item) { e.Called? && e.ok && Adds(e.request, i) }

  /** What the user has asked for stands until the user takes it back, through lost
      sessions, renewed tokens, and replays that are refused or never answered. */
  lemma {:induction false} IntentStands(s: State, es: seq<Event>, i: Item)
    requires Legal(s, es) && Has(s.record, i) && forall e | e in es :: !TakesOff(e, i)
    ensures Has(Exec(s, es).record, i)
    decreases es
  {
    if es != [] {
      assert es[0] in es && forall e | e in es[1..] :: e in es;
      if es[0].Called? { RequestsChange(s.record, es[0].request, i); }
      if es[0].Answered? { RequestsChange(s.record, RequestOf(s.replays[es[0].task].stage), i); }
      IntentStands(Next(s, es[0]), es[1..], i);
    }
  }

  /** Some replay is still to ask for the item. */
  ghost predicate Carried(s: State, i: Item) { exists t :: t in s.replays && CarriedBy(s.replays[t].stage, i) }

  predicate CarriedBy(stage: Stage, i: Item) {
    match stage
    case Spots(ids) => i.Spot? && i.symbol in ids
    case Bars(todo) => i.Bar? && i.bar in todo
    case Depth(ids) => i.Book? && i.symbol in ids
  }

  lemma ListsWhatIsOnRecord(record: Subs, i: Item)
    requires !Has(record, i)
    ensures forall st | st in FromSpots(record) + FromBars(record, ListedBars(record.trendbars)) + FromBars(record, []) :: !CarriedBy(st, i)
  {
    WholeReplayLists(record);
    if i.Spot? { assert i.symbol !in Elements(Listed(record.spots)); }
    if i.Bar? { assert i.bar !in Elements(ListedBars(record.trendbars)); }
    if i.Book? { assert i.symbol !in Elements(Listed(record.depth)); }
  }

  lemma AfterCarriesNoMore(record: Subs, stage: Stage, i: Item)
    requires !Has(record, i) && !CarriedBy(stage, i) && (stage.Bars? ==> stage.todo != [])
    ensures !Adds(RequestOf(stage), i)
    ensures forall st | st in After(record, stage) :: !CarriedBy(st, i)
  {
    ListsWhatIsOnRecord(record, i);
    if stage.Bars? {
      assert stage.todo == [stage.todo[0]] + stage.todo[1..];
      assert forall st | st in FromBars(record, []) :: !CarriedBy(st, i);
    }
  }

  lemma StepPutsNothingOn(s: State, e: Event, i: Item)
    requires Enabled(s, e) && !Has(s.record, i) && !Carried(s, i) && !PutsOn(e, i)
    ensures !Has(Next(s, e).record, i) && !Carried(Next(s, e), i)
  {
    var s' := Next(s, e);
    match e
    case Called(r, ok) => RequestsChange(s.record, r, i);
    case ReplayBegun(t) =>
      ListsWhatIsOnRecord(s.record, i);
      assert forall u | u in s'.replays && u != t :: s'.replays[u] == s.replays[u];
    case Answered(t, ok) =>
      if ok {
        var stage := s.replays[t].stage;
        assert !CarriedBy(stage, i);
        AfterCarriesNoMore(s.record, stage, i);
        RequestsChange(s.record, RequestOf(stage), i);
        AfterCarriesNoMore(s'.record, stage, i);
      }
      assert forall u | u in s'.replays && u != t :: s'.replays[u] == s.replays[u];
    case _ => assert s'.replays == s.replays;
  }

  /** And nothing comes on record that the user has not asked for, but for what a
      replay was already about to ask for when the user took it back. */
  lemma {:induction false} NothingUnaskedFor(s: State, es: seq<Event>, i: Item)
    requires Legal(s, es) && !Has(s.record, i) && !Carried(s, i) && forall e | e in es :: !PutsOn(e, i)
    ensures !Has(Exec(s, es).record, i)
    decreases es
  {
    if es != [] {
      assert es[0] in es && forall e | e in es[1..] :: e in es;
      StepPutsNothingOn(s, es[0], i);
      NothingUnaskedFor(Next(s, es[0]), es[1..], i);
    }
  }

  /** That does happen. A replay goes by the list it made when it came to the
      trendbars: one that the user takes back before its turn is asked for all the
      same, and is on record and at the server again. */
  lemma TakenBackDuringReplay(s: State, t: TaskId, first: Trendbar, second: Trendbar)
    requires s.live && first != second && t in s.replays && s.replays[t] == Replaying(s.session, Bars([first, second]))
    ensures var es := [Called(UnsubscribeTrendbars(second), true), Answered(t, true), Answered(t, true)];
            && Legal(s, es)
            && Has(Exec(s, es).record, Bar(second)) && Has(Exec(s, es).server, Bar(second))
  {
    var s1 := Next(s, Called(UnsubscribeTrendbars(second), true));
    var s2 := Next(s1, Answered(t, true));
    assert [first, second][1..] == [second];
    assert s2.replays[t] == Replaying(s.session, Bars([second]));
    var s3 := Next(s2, Answered(t, true));
    assert Has(s3.record, Bar(second)) && Has(s3.server, Bar(second));
    Prepend(s2, Answered(t, true), []);
    Prepend(s1, Answered(t, true), [Answered(t, true)]);
    Prepend(s, Called(UnsubscribeTrendbars(second), true), [Answered(t, true), Answered(t, true)]);
  }

  // ---------------------------------------------------------------------
  // The next reconnection tries again
  // ---------------------------------------------------------------------

  /** How many requests are left to a replay whose record stays as it is. */
  ghost function Remaining(stage: Stage, record: Subs): nat {
    var last := if record.depth != {} then 1 else 0;
    match stage
    case Spots(_) => 1 + |ListedBars(record.trendbars)| + last
    case Bars(todo) => |todo| + last
    case Depth(_) => 1
  }

  /** A stage asks for nothing the record does not have. */
  predicate Asks(stage: Stage, record: Subs) {
    match stage
    case Spots(ids) => Elements(ids) <= record.spots
    case Bars(todo) => todo != [] && Elements(todo) <= record.trendbars
    case Depth(ids) => Elements(ids) <= record.depth
  }

  ghost predicate Alone(s: State, t: TaskId) { Current(s, t) && forall u | Current(s, u) :: u == t }

  function Accepted(t: TaskId, n: nat): seq<Event> { seq(n, _ => Answered(t, true)) }

  lemma StageAsks(stage: Stage, record: Subs)
    requires Asks(stage, record)
    ensures Effect(record, RequestOf(stage)) == record
    ensures var next := After(record, stage);
            && |next| <= 1
            && (next == [] ==> Remaining(stage, record) == 1)
            && (next != [] ==> Asks(next[0], record) && Remaining(stage, record) == 1 + Remaining(next[0], record))
  {
    WholeReplayLists(record);
    if stage.Bars? {
      var todo := stage.todo;
      assert todo[0] in Elements(todo);
      assert Elements(todo[1..]) <= Elements(todo);
    }
  }

  lemma {:induction false} AcceptedToTheEnd(s: State, t: TaskId, n: nat)
    requires Inv(s) && s.live && s.begun && !s.failed && Alone(s, t)
    requires Asks(s.replays[t].stage, s.record) && n == Remaining(s.replays[t].stage, s.record)
    ensures Legal(s, Accepted(t, n))
    ensures var end := Exec(s, Accepted(t, n));
            end.live && end.record == s.record && end.server == s.record && t !in end.replays
    decreases n
  {
    var stage := s.replays[t].stage;
    var s' := Next(s, Answered(t, true));
    StageAsks(stage, s.record);
    StepInv(s, Answered(t, true));
    assert Accepted(t, n)[0] == Answered(t, true) && Accepted(t, n)[1..] == Accepted(t, n - 1);
    assert forall u | u != t :: Current(s', u) <==> Current(s, u);
    if After(s.record, stage) == [] {
      assert Accepted(t, n - 1) == [];
      assert forall u :: !Current(s', u);
    } else {
      assert Alone(s', t);
      AcceptedToTheEnd(s', t, n - 1);
    }
  }

  lemma FirstStage(record: Subs)
    ensures var first, sent := FromSpots(record), |WholeReplay(record)|;
            && |first| <= 1
            && (first == [] ==> sent == 0 && record == NONE)
            && (first != [] ==> Asks(first[0], record) && sent == Remaining(first[0], record))
  {
    WholeReplayLists(record);
    ReplayIs(record, Listed(record.spots), ListedBars(record.trendbars), Listed(record.depth));
  }

  lemma AcceptedThroughout(s: State, t: TaskId)
    requires Inv(s) && s.live && !s.begun && !s.failed && t !in s.replays
    ensures var s' := Next(s, ReplayBegun(t));
            var rest := Accepted(t, |WholeReplay(s.record)|);
            Legal(s', rest) && Exec(s', rest).record == s.record && Exec(s', rest).server == s.record
  {
    var s' := Next(s, ReplayBegun(t));
    StepInv(s, ReplayBegun(t));
    FirstStage(s.record);
    assert forall u | u != t :: Current(s', u) <==> Current(s, u);
    if FromSpots(s.record) == [] {
      assert Accepted(t, |WholeReplay(s.record)|) == [];
    } else {
      assert Alone(s', t);
      AcceptedToTheEnd(s', t, |WholeReplay(s.record)|);
    }
  }

  lemma Prepend(s: State, e: Event, es: seq<Event>)
    requires Enabled(s, e) && Legal(Next(s, e), es)
    ensures Legal(s, [e] + es) && Exec(s, [e] + es) == Exec(Next(s, e), es)
  {
    assert ([e] + es)[1..] == es;
  }

  /** Whatever has happened, earlier failed replays included, the next session
      whose replay is accepted throughout holds everything that was asked for. */
  lemma NextReplayRestores(past: seq<Event>, t: TaskId)
    requires Legal(START, past) && !Exec(START, past).live && t !in Exec(START, past).replays
    ensures var s := Exec(START, past);
            var onwards := [SessionEstablished] + ([ReplayBegun(t)] + Accepted(t, |WholeReplay(s.record)|));
            Legal(s, onwards) && Exec(s, onwards).record == s.record && Exec(s, onwards).server == s.record
  {
    var s := Exec(START, past);
    RunInv(START, past);
    var s1 := Next(s, SessionEstablished);
    StepInv(s, SessionEstablished);
    AcceptedThroughout(s1, t);
    var rest := Accepted(t, |WholeReplay(s.record)|);
    Prepend(s1, ReplayBegun(t), rest);
    Prepend(s, SessionEstablished, [ReplayBegun(t)] + rest);
  }
}
