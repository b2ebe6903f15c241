/** What every run of calls and replies keeps. */
module CallTheorems {
  import opened MessageIds
  import opened Calls

  // ---------------------------------------------------------------------
  // The log, read as the story of one id
  // ---------------------------------------------------------------------

  /** `Broken` marks a history that could not be a correct one. */
  datatype Story = Unknown | Open(slot: Slot) | Over(result: Result) | Broken

  datatype Reading = Reading(stopped: bool, story: Story)

  /** Whether a call may end this way, given what was stored in its slot. */
  predicate Fitting(stopped: bool, slot: Slot, result: Result) {
    match result
    case Answered(m) => !stopped && slot == Slot(true, Reply(m))
    case ApiError(m) => !stopped && slot == Slot(true, Refusal(m))
    case Closed => slot.isSet && (stopped || slot.outcome == ConnectionLost)
    case _ => true
  }

  function Tell(stopped: bool, story: Story, id: string, e: Entry): Story {
    match e
    case Registered(i) => if i != id then story else if story == Unknown then Open(FRESH) else Broken
    case Arrived(m, toCall) =>
      if m.clientId != id || id == "" then story
      else if story == Broken then Broken
      else if toCall != story.Open? then Broken
      else if toCall then Open(Resolve(m)) else story
    case Finished(i, result) =>
      if i != id then story
      else if story.Open? && Fitting(stopped, story.slot, result) then Over(result) else Broken
    case AllFailed => if story.Open? then Open(Slot(true, ConnectionLost)) else story
    case _ => story
  }

  function Observe(id: string, r: Reading, e: Entry): Reading {
    Reading(e == Stopped || e == AllFailed || (e != ServedAgain && r.stopped), Tell(r.stopped, r.story, id, e))
  }

  function Read(id: string, log: seq<Entry>): Reading {
    if log == [] then Reading(false, Unknown)
    else Observe(id, Read(id, log[..|log| - 1]), log[|log| - 1])
  }

  lemma ReadOn(id: string, log: seq<Entry>, e: Entry)
    ensures Read(id, log + [e]) == Observe(id, Read(id, log), e)
  {
    assert (log + [e])[..|log|] == log;
  }

  // ---------------------------------------------------------------------
  // The invariant
  // ---------------------------------------------------------------------

  predicate Fits(id: string, s: State, r: Reading) {
    && r.stopped == !s.running
    && r.story != Broken
    && (r.story.Open? ==> (r.story.slot.isSet <==> r.story.slot.outcome != Unresolved))
    && (id in s.pending <==> r.story.Open?)
    && (id in s.pending ==> s.pending[id] == r.story.slot)
    && (id in s.calls <==> id in s.pending)
  }

  /** Ids not handed out yet have no story. */
  ghost predicate Fresh(s: State, id: string, r: Reading) {
    (forall n: nat | n > s.counter :: id != Decimal(n)) || r.story == Unknown
  }

  ghost predicate Inv(id: string, s: State) {
    Fits(id, s, Read(id, s.log)) && Fresh(s, id, Read(id, s.log))
  }

  /** What a step writes to the log, if anything. */
  function Writes(s: State, e: Event): seq<Entry>
    requires Enabled(s, e)
  {
    match e
    case Call => [if s.running then Registered(Decimal(s.counter + 1)) else NotRunning]
    case Sent(id, ok) => if ok then [] else [Finished(id, SendFailed)]
    case Arrive(m) => [Arrived(m, m.clientId != "" && m.clientId in s.pending)]
    case Wake(id) => [Finished(id, Outcomes(s.running, s.pending[id].outcome))]
    case Expire(id) => [Finished(id, TimedOut)]
    case CancelCall(id) => [Finished(id, Cancelled)]
    case Stop => [Stopped]
    case FailAll => [AllFailed]
    case Serve => [ServedAgain]
  }

  lemma ReadWrites(id: string, s: State, e: Event)
    requires Enabled(s, e)
    ensures Read(id, Next(s, e).log)
         == if Writes(s, e) == [] then Read(id, s.log) else Observe(id, Read(id, s.log), Writes(s, e)[0])
  {
  }

  lemma StepFits(id: string, s: State, e: Event, r: Reading)
    requires Enabled(s, e) && Fits(id, s, r) && Fresh(s, id, r)
    requires forall i: string :: i in s.pending <==> i in s.calls
    ensures Fits(id, Next(s, e), if Writes(s, e) == [] then r else Observe(id, r, Writes(s, e)[0]))
  {
  }

  lemma StepFresh(id: string, s: State, e: Event, r: Reading)
    requires Enabled(s, e) && Fits(id, s, r) && Fresh(s, id, r)
    requires forall i: string :: i in s.pending <==> i in s.calls
    ensures Fresh(Next(s, e), id, if Writes(s, e) == [] then r else Observe(id, r, Writes(s, e)[0]))
  {
    forall n: nat | n != s.counter + 1 ensures Decimal(n) != Decimal(s.counter + 1) {
      if Decimal(n) == Decimal(s.counter + 1) { DecimalInjective(n, s.counter + 1); }
    }
  }

  lemma StepInv(id: string, s: State, e: Event)
    requires Enabled(s, e) && Inv(id, s)
    requires forall i: string :: i in s.pending <==> i in s.calls
    ensures Inv(id, Next(s, e))
  {
    ReadWrites(id, s, e);
    StepFits(id, s, e, Read(id, s.log));
    StepFresh(id, s, e, Read(id, s.log));
  }

  lemma {:induction false} RunInv(id: string, s: State, es: seq<Event>)
    requires Legal(s, es) && Inv(id, s)
    requires forall i: string :: i in s.pending <==> i in s.calls
    ensures Inv(id, Exec(s, es))
    decreases es
  {
    if es != [] {
      StepInv(id, s, es[0]);
      RunInv(id, Next(s, es[0]), es[1..]);
    }
  }

  ghost function After(es: seq<Event>): State
    requires Legal(START, es)
  {
    Exec(START, es)
  }

  lemma Reached(id: string, es: seq<Event>)
    requires Legal(START, es)
    ensures Inv(id, After(es))
  {
    RunInv(id, START, es);
  }

  // ---------------------------------------------------------------------
  // What a sound story says about positions in the log
  // ---------------------------------------------------------------------

  lemma {:induction false} Prefix(id: string, log: seq<Entry>, n: nat)
    requires n <= |log| && Read(id, log).story != Broken
    ensures Read(id, log[..n]).story != Broken
    decreases |log|
  {
    if n == |log| {
      assert log[..n] == log;
    } else {
      Prefix(id, log[..|log| - 1], n);
      assert log[..|log| - 1][..n] == log[..n];
    }
  }

  lemma StepAt(id: string, log: seq<Entry>, k: nat)
    requires k < |log| && Read(id, log).story != Broken
    ensures Read(id, log[..k + 1]) == Observe(id, Read(id, log[..k]), log[k])
    ensures Read(id, log[..k + 1]).story != Broken
  {
    Prefix(id, log, k + 1);
    ReadOn(id, log[..k], log[k]);
    assert log[..k + 1] == log[..k] + [log[k]];
  }

  /** The request has been registered and has not finished. */
  ghost predicate InFlight(log: seq<Entry>, id: string) {
    exists i :: 0 <= i < |log| && log[i] == Registered(id)
             && forall j | i < j < |log| :: !(log[j].Finished? && log[j].id == id)
  }

  ghost predicate Known(log: seq<Entry>, id: string) {
    exists i :: 0 <= i < |log| && log[i] == Registered(id)
  }

  lemma InFlightOn(log: seq<Entry>, e: Entry, id: string)
    ensures InFlight(log + [e], id) <==> e == Registered(id) || (InFlight(log, id) && !(e.Finished? && e.id == id))
    ensures Known(log + [e], id) <==> e == Registered(id) || Known(log, id)
  {
    var longer := log + [e];
    assert longer[|log|] == e;
    if InFlight(log, id) {
      var i :| 0 <= i < |log| && log[i] == Registered(id)
            && forall j | i < j < |log| :: !(log[j].Finished? && log[j].id == id);
      assert longer[i] == Registered(id);
    }
    if InFlight(longer, id) && e != Registered(id) {
      var i :| 0 <= i < |longer| && longer[i] == Registered(id)
            && forall j | i < j < |longer| :: !(longer[j].Finished? && longer[j].id == id);
      assert log[i] == Registered(id);
      assert forall j | i < j < |log| :: log[j] == longer[j];
    }
    if Known(log, id) {
      var i :| 0 <= i < |log| && log[i] == Registered(id);
      assert longer[i] == Registered(id);
    }
  }

  lemma OpenOn(stopped: bool, story: Story, id: string, e: Entry)
    requires Tell(stopped, story, id, e) != Broken && story != Broken
    ensures var story' := Tell(stopped, story, id, e);
            && (story'.Open? <==> e == Registered(id) || (story.Open? && !(e.Finished? && e.id == id)))
            && (story' == Unknown <==> story == Unknown && e != Registered(id))
  {
  }

  lemma {:induction false} OpenMeans(id: string, log: seq<Entry>)
    requires Read(id, log).story != Broken
    ensures Read(id, log).story.Open? <==> InFlight(log, id)
    ensures Read(id, log).story == Unknown <==> !Known(log, id)
    decreases |log|
  {
    if log != [] {
      var before, e := log[..|log| - 1], log[|log| - 1];
      Prefix(id, log, |log| - 1);
      OpenMeans(id, before);
      OpenOn(Read(id, before).stopped, Read(id, before).story, id, e);
      InFlightOn(before, e, id);
      assert log == before + [e];
    }
  }

  /** The reply a call was given last, and when. */
  lemma {:induction false} ReplyMeans(id: string, log: seq<Entry>, m: Inbound)
    requires id != ""
    requires Read(id, log).story.Open? && Read(id, log).story.slot == Resolve(m)
    ensures m.clientId == id
    ensures exists i, j :: 0 <= i < j < |log| && log[i] == Registered(id) && log[j] == Arrived(m, true)
              && forall k | j < k < |log| :: !(log[k].Arrived? && log[k].message.clientId == id)
  {
    var n := |log| - 1;
    var e := log[n];
    var before := log[..n];
    StepAt(id, log, n);
    assert log[..n + 1] == log;
    Prefix(id, log, n);
    if e == Arrived(m, true) && m.clientId == id {
      OpenMeans(id, before);
      var i :| 0 <= i < n && before[i] == Registered(id);
      assert log[i] == Registered(id) && log[n] == Arrived(m, true);
    } else {
      ReplyMeans(id, before, m);
      var i, j :| 0 <= i < j < n && before[i] == Registered(id) && before[j] == Arrived(m, true)
              && forall k | j < k < n :: !(before[k].Arrived? && before[k].message.clientId == id);
      assert log[i] == Registered(id) && log[j] == Arrived(m, true);
      assert forall k | j < k < n :: log[k] == before[k];
    }
  }

  lemma {:induction false} NoBlankIds(s: State, es: seq<Event>)
    requires Legal(s, es) && forall i | 0 <= i < |s.log| :: s.log[i] != Registered("")
    ensures forall i | 0 <= i < |Exec(s, es).log| :: Exec(s, es).log[i] != Registered("")
    decreases es
  {
    if es != [] {
      assert Decimal(s.counter + 1) != "";
      NoBlankIds(Next(s, es[0]), es[1..]);
    }
  }

  /** A call that ends had registered, under an id that is not blank. */
  lemma EndedIsNamed(es: seq<Event>, k: nat)
    requires Legal(START, es) && k < |After(es).log| && After(es).log[k].Finished?
    ensures After(es).log[k].id != ""
  {
    var log, id := After(es).log, After(es).log[k].id;
    Reached(id, es);
    StepAt(id, log, k);
    Prefix(id, log, k);
    OpenMeans(id, log[..k]);
    NoBlankIds(START, es);
    var i :| 0 <= i < k && log[..k][i] == Registered(id);
    assert log[i] == Registered(id);
  }

  // ---------------------------------------------------------------------
  // Correlation
  // ---------------------------------------------------------------------

  /** A call returns only a message bearing its own id, which arrived after the
      call had registered and was the last to arrive for it; an error response
      raises in just the same way. Neither happens once the protocol has been
      stopped or has given up. */
  lemma AnswersAreCorrelated(es: seq<Event>, k: nat, id: string, m: Inbound)
    requires Legal(START, es) && k < |After(es).log|
    requires After(es).log[k] == Finished(id, if m.isError then ApiError(m) else Answered(m))
    ensures var log := After(es).log;
            && m.clientId == id
            && (exists i, j :: 0 <= i < j < k && log[i] == Registered(id) && log[j] == Arrived(m, true)
                  && forall h | j < h < k :: !(log[h].Arrived? && log[h].message.clientId == id))
  {
    var log := After(es).log;
    Reached(id, es);
    StepAt(id, log, k);
    EndedIsNamed(es, k);
    ReplyMeans(id, log[..k], m);
    var i, j :| 0 <= i < j < k && log[..k][i] == Registered(id) && log[..k][j] == Arrived(m, true)
             && forall h | j < h < k :: !(log[..k][h].Arrived? && log[..k][h].message.clientId == id);
    assert log[i] == Registered(id) && log[j] == Arrived(m, true);
    assert forall h | j < h < k :: log[..k][h] == log[h];
  }

  lemma {:induction false} OverForGood(id: string, log: seq<Entry>, k: nat, n: nat)
    requires k < n <= |log| && Read(id, log).story != Broken
    requires log[k].Finished? && log[k].id == id
    ensures Read(id, log[..n]).story.Over?
    ensures forall j | k < j < n :: !(log[j].Finished? && log[j].id == id)
    decreases n
  {
    if n == k + 1 {
      StepAt(id, log, k);
    } else {
      OverForGood(id, log, k, n - 1);
      StepAt(id, log, n - 1);
    }
  }

  /** No message answers two calls: ids are never reused, and no call ends twice. */
  lemma AnsweredOnce(es: seq<Event>, k: nat, k': nat, id: string, id': string, m: Inbound)
    requires Legal(START, es) && k < |After(es).log| && k' < |After(es).log|
    requires var ending := if m.isError then ApiError(m) else Answered(m);
             After(es).log[k] == Finished(id, ending) && After(es).log[k'] == Finished(id', ending)
    ensures id == id' && k == k'
  {
    AnswersAreCorrelated(es, k, id, m);
    AnswersAreCorrelated(es, k', id', m);
    Reached(id, es);
    if k < k' {
      OverForGood(id, After(es).log, k, k' + 1);
    } else if k' < k {
      OverForGood(id, After(es).log, k', k + 1);
    }
  }

  /** Every message that arrives goes to exactly one place: to the call it names
      if that call is still in flight, to the event handlers otherwise. */
  lemma EachMessageGoesToOnePlace(es: seq<Event>, j: nat)
    requires Legal(START, es) && j < |After(es).log| && After(es).log[j].Arrived?
    requires After(es).log[j].message.clientId != ""
    ensures var log := After(es).log;
            log[j].toCall <==> InFlight(log[..j], log[j].message.clientId)
  {
    var log := After(es).log;
    var id := log[j].message.clientId;
    Reached(id, es);
    StepAt(id, log, j);
    Prefix(id, log, j);
    OpenMeans(id, log[..j]);
  }

  lemma {:induction false} BlankIdsGoToHandlers(s: State, es: seq<Event>, j: nat)
    requires Legal(s, es)
    requires forall i | 0 <= i < |s.log| :: s.log[i].Arrived? && s.log[i].message.clientId == "" ==> !s.log[i].toCall
    requires j < |Exec(s, es).log|
    requires var e := Exec(s, es).log[j]; e.Arrived? && e.message.clientId == ""
    ensures !Exec(s, es).log[j].toCall
    decreases es
  {
    if es != [] {
      BlankIdsGoToHandlers(Next(s, es[0]), es[1..], j);
    }
  }

  /** The ids handed out, in order. */
  ghost function IdsIn(log: seq<Entry>): seq<string> {
    if log == [] then []
    else
      var before := IdsIn(log[..|log| - 1]);
      if log[|log| - 1].Registered? then before + [log[|log| - 1].id] else before
  }

  ghost predicate CountsUp(s: State) {
    && |IdsIn(s.log)| == s.counter
    && forall n | 0 <= n < |IdsIn(s.log)| :: IdsIn(s.log)[n] == Decimal(n + 1)
  }

  lemma {:induction false} IdsCountUp(s: State, es: seq<Event>)
    requires Legal(s, es) && CountsUp(s)
    ensures CountsUp(Exec(s, es))
    decreases es
  {
    if es != [] {
      StepCountsUp(s, es[0]);
      IdsCountUp(Next(s, es[0]), es[1..]);
    }
  }

  lemma StepCountsUp(s: State, e: Event)
    requires Enabled(s, e) && CountsUp(s)
    ensures CountsUp(Next(s, e))
  {
    if Writes(s, e) != [] {
      assert Next(s, e).log == s.log + [Writes(s, e)[0]];
      IdsOn(s.log, Writes(s, e)[0]);
    }
  }

  lemma IdsOn(log: seq<Entry>, e: Entry)
    ensures IdsIn(log + [e]) == if e.Registered? then IdsIn(log) + [e.id] else IdsIn(log)
  {
    assert (log + [e])[..|log|] == log;
  }

  /** The nth call of a run, and no other, carries the decimal form of n. */
  lemma IdsAreNumbered(es: seq<Event>, n: nat, n': nat)
    requires Legal(START, es)
    requires n < |IdsIn(After(es).log)| && n' < |IdsIn(After(es).log)|
    ensures IdsIn(After(es).log)[n] == Decimal(n + 1)
    ensures IdsIn(After(es).log)[n] == IdsIn(After(es).log)[n'] <==> n == n'
  {
    IdsCountUp(START, es);
    if IdsIn(After(es).log)[n] == IdsIn(After(es).log)[n'] {
      DecimalInjective(n + 1, n' + 1);
    }
  }

  // ---------------------------------------------------------------------
  // No caller is stranded
  // ---------------------------------------------------------------------

  /** The protocol has given up, or left serve(), and has not been served since. */
  ghost predicate Failed(log: seq<Entry>) {
    log != [] && log[|log| - 1] != ServedAgain && (log[|log| - 1] == AllFailed || Failed(log[..|log| - 1]))
  }

  ghost predicate AllWoken(s: State) {
    Failed(s.log) ==> !s.running && forall id | id in s.pending :: s.pending[id].isSet
  }

  lemma {:induction false} FailedWakesAll(s: State, es: seq<Event>)
    requires Legal(s, es) && AllWoken(s)
    ensures AllWoken(Exec(s, es))
    decreases es
  {
    if es != [] {
      var s1 := Next(s, es[0]);
      if Writes(s, es[0]) != [] {
        var x := Writes(s, es[0])[0];
        assert s1.log == s.log + [x];
        assert (s.log + [x])[..|s.log|] == s.log;
      }
      FailedWakesAll(s1, es[1..]);
    }
  }

  /** Once everything in flight has been failed, every slot has its event set, so
      each waiting caller can move, and it is told that the connection closed,
      even if a reply had been stored for it, or arrives for it now. */
  lemma NoCallerIsStranded(es: seq<Event>, id: string)
    requires Legal(START, es) && Failed(After(es).log)
    requires id in After(es).calls
    ensures var s := After(es);
            && id in s.pending && s.pending[id].isSet
            && (s.calls[id] == Waiting ==>
                  Enabled(s, Wake(id)) && Next(s, Wake(id)).log == s.log + [Finished(id, Closed)])
            && !Next(s, Call).running && Next(s, Call).pending == s.pending
  {
    FailedWakesAll(START, es);
    Reached(id, es);
  }

  lemma {:induction false} StoppedMeans(id: string, log: seq<Entry>)
    requires Failed(log)
    ensures Read(id, log).stopped
  {
    if log[|log| - 1] != AllFailed { StoppedMeans(id, log[..|log| - 1]); }
  }

  /** The call ended because its event was set, not by a timeout, a failed write or
      a cancellation. */
  predicate Resumed(result: Result) { result.Answered? || result.ApiError? || result.Closed? }

  predicate IsReply(result: Result) { result.Answered? || result.ApiError? }

  /** Stopped, or failed, and not served since. */
  ghost predicate Down(log: seq<Entry>) {
    exists h :: 0 <= h < |log| && (log[h] == Stopped || log[h] == AllFailed)
             && forall j | h < j < |log| :: log[j] != ServedAgain
  }

  /** A reply was left for the call, and not overwritten by a failure since. */
  ghost predicate Delivered(log: seq<Entry>, id: string) {
    exists j :: IsArrival(log, j, id) && forall h | j < h < |log| :: log[h] != AllFailed
  }

  predicate IsArrival(log: seq<Entry>, j: int, id: string) {
    0 <= j < |log| && log[j].Arrived? && log[j].toCall && log[j].message.clientId == id
  }

  lemma DownOn(log: seq<Entry>, e: Entry)
    ensures Down(log + [e]) <==> e == Stopped || e == AllFailed || (e != ServedAgain && Down(log))
  {
    var longer := log + [e];
    assert longer[|log|] == e;
    if Down(log) && e != ServedAgain {
      var h :| 0 <= h < |log| && (log[h] == Stopped || log[h] == AllFailed) && forall j | h < j < |log| :: log[j] != ServedAgain;
      assert longer[h] == log[h] && forall j | h < j < |longer| :: longer[j] != ServedAgain;
    }
    if Down(longer) && e != Stopped && e != AllFailed {
      var h :| 0 <= h < |longer| && (longer[h] == Stopped || longer[h] == AllFailed)
            && forall j | h < j < |longer| :: longer[j] != ServedAgain;
      assert log[h] == longer[h] && forall j | h < j < |log| :: log[j] == longer[j];
    }
  }

  lemma DeliveredOn(log: seq<Entry>, e: Entry, id: string)
    ensures Delivered(log + [e], id) <==> (e.Arrived? && e.toCall && e.message.clientId == id) || (e != AllFailed && Delivered(log, id))
  {
    var longer := log + [e];
    assert longer[|log|] == e;
    if e.Arrived? && e.toCall && e.message.clientId == id { assert IsArrival(longer, |log|, id); }
    if Delivered(log, id) && e != AllFailed {
      var j :| IsArrival(log, j, id) && forall h | j < h < |log| :: log[h] != AllFailed;
      assert IsArrival(longer, j, id);
    }
    if Delivered(longer, id) && !(e.Arrived? && e.toCall && e.message.clientId == id) {
      var j :| IsArrival(longer, j, id) && forall h | j < h < |longer| :: longer[h] != AllFailed;
      assert IsArrival(log, j, id) && forall h | j < h < |log| :: log[h] == longer[h];
    }
  }

  lemma {:induction false} DownMeans(id: string, log: seq<Entry>)
    ensures Read(id, log).stopped <==> Down(log)
  {
    if log != [] {
      DownMeans(id, log[..|log| - 1]);
      DownOn(log[..|log| - 1], log[|log| - 1]);
      assert log == log[..|log| - 1] + [log[|log| - 1]];
    }
  }

  /** What is in the slot of a call in flight: the reply last delivered, if no
      failure has come after it. */
  ghost predicate SlotFits(story: Story, delivered: bool) {
    && (story.Open? ==> (delivered <==> story.slot.outcome.Reply? || story.slot.outcome.Refusal?))
    && (story == Unknown ==> !delivered)
  }

  lemma SlotOn(stopped: bool, story: Story, id: string, e: Entry, delivered: bool)
    requires id != "" && Tell(stopped, story, id, e) != Broken && story != Broken && SlotFits(story, delivered)
    ensures SlotFits(Tell(stopped, story, id, e),
                     (e.Arrived? && e.toCall && e.message.clientId == id) || (e != AllFailed && delivered))
  {
  }

  lemma {:induction false} SlotMeans(id: string, log: seq<Entry>)
    requires id != "" && Read(id, log).story != Broken
    ensures SlotFits(Read(id, log).story, Delivered(log, id))
    decreases |log|
  {
    if log != [] {
      var before, e := log[..|log| - 1], log[|log| - 1];
      Prefix(id, log, |log| - 1);
      SlotMeans(id, before);
      SlotOn(Read(id, before).stopped, Read(id, before).story, id, e, Delivered(before, id));
      DeliveredOn(before, e, id);
      assert log == before + [e];
    }
  }

  /** The reply last delivered to the call, with no failure since. */
  ghost predicate LastDelivery(log: seq<Entry>, id: string, m: Inbound) {
    exists j :: IsArrival(log, j, id) && log[j].message == m
      && forall h | j < h < |log| :: log[h] != AllFailed && !IsArrival(log, h, id)
  }

  lemma LastDeliveryOn(log: seq<Entry>, e: Entry, id: string, m: Inbound)
    requires if e.Arrived? && e.toCall && e.message.clientId == id then e.message == m
             else e != AllFailed && LastDelivery(log, id, m)
    ensures LastDelivery(log + [e], id, m)
  {
    var longer := log + [e];
    if e.Arrived? && e.toCall && e.message.clientId == id {
      assert IsArrival(longer, |log|, id);
    } else {
      var j :| IsArrival(log, j, id) && log[j].message == m
            && forall h | j < h < |log| :: log[h] != AllFailed && !IsArrival(log, h, id);
      assert IsArrival(longer, j, id);
      forall h | j < h < |longer| ensures longer[h] != AllFailed && !IsArrival(longer, h, id) {
        if h < |log| { assert longer[h] == log[h] && !IsArrival(log, h, id); }
      }
    }
  }

  /** An error response is kept as one, any other message as a reply. */
  predicate Keeps(slot: Slot, m: Inbound) {
    slot.isSet && slot.outcome == if m.isError then Refusal(m) else Reply(m)
  }

  lemma {:induction false} SlotKeepsLast(id: string, log: seq<Entry>) returns (m: Inbound)
    requires id != "" && Read(id, log).story != Broken && Read(id, log).story.Open? && Delivered(log, id)
    ensures LastDelivery(log, id, m) && Keeps(Read(id, log).story.slot, m)
    decreases |log|
  {
    var before, e := log[..|log| - 1], log[|log| - 1];
    assert log == before + [e];
    Prefix(id, log, |log| - 1);
    SlotMeans(id, before);
    DeliveredOn(before, e, id);
    if e.Arrived? && e.toCall && e.message.clientId == id {
      m := e.message;
    } else {
      m := SlotKeepsLast(id, before);
    }
    LastDeliveryOn(before, e, id, m);
  }

  /** How a call ends that wakes because its event is set: with the reply last
      delivered to it, raised if it is an error response and returned otherwise,
      as long as the protocol is not down and no failure has overwritten that
      reply; and in every other case because the connection closed. */
  lemma WakeEndsWith(es: seq<Event>, id: string)
    requires Legal(START, es) && Enabled(After(es), Wake(id))
    ensures var log, log' := After(es).log, Next(After(es), Wake(id)).log;
            if !Down(log) && Delivered(log, id)
            then exists m :: LastDelivery(log, id, m) && log' == log + [Finished(id, if m.isError then ApiError(m) else Answered(m))]
            else log' == log + [Finished(id, Closed)]
  {
    var s := After(es);
    Reached(id, es);
    WaitingIsNamed(es, id);
    DownMeans(id, s.log);
    SlotMeans(id, s.log);
    if !Down(s.log) && Delivered(s.log, id) {
      var m := SlotKeepsLast(id, s.log);
      assert Keeps(s.pending[id], m);
    }
  }

  lemma WaitingIsNamed(es: seq<Event>, id: string)
    requires Legal(START, es) && id in After(es).calls
    ensures id != ""
  {
    Reached(id, es);
    OpenMeans(id, After(es).log);
    NoBlankIds(START, es);
  }

  /** A call times out, fails to send or is cancelled exactly by the step of that
      name; and each of them ends the call there and then. */
  lemma EndingsAreCaused(es: seq<Event>, e: Event, id: string)
    requires Legal(START, es) && Enabled(After(es), e)
    ensures var log, log' := After(es).log, Next(After(es), e).log;
            && (log' == log + [Finished(id, TimedOut)] <==> e == Expire(id))
            && (log' == log + [Finished(id, SendFailed)] <==> e == Sent(id, false))
            && (log' == log + [Finished(id, Cancelled)] <==> e == CancelCall(id))
            && (e in {Expire(id), Sent(id, false), CancelCall(id), Wake(id)} ==>
                  id !in Next(After(es), e).calls && id !in Next(After(es), e).pending)
  {
    var log' := Next(After(es), e).log;
    assert log' != After(es).log ==> log'[|log'| - 1] == Writes(After(es), e)[0];
    if e.Wake? { WakeEndsWith(es, e.id); }
  }

  /** A call whose event is set ends in a reply exactly if the protocol is not down
      at that moment and a reply has been delivered to it that no failure has
      overwritten. */
  lemma ResumesWithReplyIff(es: seq<Event>, k: nat)
    requires Legal(START, es) && k < |After(es).log|
    requires After(es).log[k].Finished? && Resumed(After(es).log[k].result)
    ensures var log := After(es).log;
            IsReply(log[k].result) <==> !Down(log[..k]) && Delivered(log[..k], log[k].id)
  {
    var log := After(es).log;
    var id := log[k].id;
    EndedIsNamed(es, k);
    Reached(id, es);
    StepAt(id, log, k);
    Prefix(id, log, k);
    DownMeans(id, log[..k]);
    SlotMeans(id, log[..k]);
  }

  /** Served again after position `f`, and neither stopped nor failed since. */
  ghost predicate UpSince(log: seq<Entry>, f: nat) {
    exists h :: f < h < |log| && log[h] == ServedAgain
             && forall g | h < g < |log| :: log[g] != Stopped && log[g] != AllFailed
  }

  /** A reply was left for the call after position `f`, and not overwritten since. */
  ghost predicate DeliveredSince(log: seq<Entry>, f: nat, id: string) {
    exists j :: f < j && IsArrival(log, j, id) && forall g | j < g < |log| :: log[g] != AllFailed
  }

  /** So in every run, a call registered before a failure that resumes after it
      ends in a reply exactly if, since that failure, the protocol has been served
      again and is not down, and a reply has arrived that no later failure has
      overwritten. No reply stored before the failure ever reaches its caller. */
  lemma ReplyAfterFailureIff(es: seq<Event>, i: nat, f: nat, k: nat)
    requires Legal(START, es) && i < f < k < |After(es).log|
    requires After(es).log[k].Finished? && Resumed(After(es).log[k].result)
    requires After(es).log[i] == Registered(After(es).log[k].id) && After(es).log[f] == AllFailed
    ensures var log := After(es).log;
            IsReply(log[k].result) <==> UpSince(log[..k], f) && DeliveredSince(log[..k], f, log[k].id)
  {
    ResumesWithReplyIff(es, k);
    UpMeans(After(es).log[..k], f);
    assert After(es).log[..k][f] == AllFailed;
  }

  lemma UpOn(log: seq<Entry>, e: Entry, f: nat)
    requires f < |log|
    ensures UpSince(log + [e], f) <==> e == ServedAgain || (e != Stopped && e != AllFailed && UpSince(log, f))
  {
    var longer := log + [e];
    assert longer[|log|] == e;
    if UpSince(log, f) && e != Stopped && e != AllFailed {
      var h :| f < h < |log| && log[h] == ServedAgain
            && forall g | h < g < |log| :: log[g] != Stopped && log[g] != AllFailed;
      assert longer[h] == ServedAgain;
    }
    if UpSince(longer, f) && e != ServedAgain {
      var h :| f < h < |longer| && longer[h] == ServedAgain
            && forall g | h < g < |longer| :: longer[g] != Stopped && longer[g] != AllFailed;
      assert log[h] == ServedAgain && forall g | h < g < |log| :: log[g] == longer[g];
    }
  }

  lemma {:induction false} UpMeans(log: seq<Entry>, f: nat)
    requires f < |log| && log[f] == AllFailed
    ensures !Down(log) <==> UpSince(log, f)
    decreases |log|
  {
    var before, e := log[..|log| - 1], log[|log| - 1];
    assert log == before + [e];
    DownOn(before, e);
    if f < |before| {
      UpMeans(before, f);
      UpOn(before, e, f);
    }
  }

  /** What a call registered before a failure returns after it, if it returns
      anything, arrived after it, and so did a new serve. */
  lemma NoStoredReplySurvives(es: seq<Event>, i: nat, f: nat, k: nat, m: Inbound)
    requires Legal(START, es) && i < f < k < |After(es).log|
    requires After(es).log[i].Registered? && After(es).log[f] == AllFailed
    requires After(es).log[k] == Finished(After(es).log[i].id, if m.isError then ApiError(m) else Answered(m))
    ensures var log := After(es).log;
            && (exists j :: f < j < k && log[j] == Arrived(m, true))
            && (exists h :: f < h < k && log[h] == ServedAgain)
  {
    var log, id := After(es).log, After(es).log[i].id;
    ReplyAfterFailureIff(es, i, f, k);
    AnswersAreCorrelated(es, k, id, m);
    var first, last :| 0 <= first < last < k && log[first] == Registered(id) && log[last] == Arrived(m, true)
                    && forall h | last < h < k :: !(log[h].Arrived? && log[h].message.clientId == id);
    var j :| f < j && IsArrival(log[..k], j, id) && forall g | j < g < k :: log[..k][g] != AllFailed;
    assert log[j] == log[..k][j];
    var h :| f < h < k && log[..k][h] == ServedAgain;
    assert log[h] == ServedAgain;
  }

  /** A reply can reach a call after a failure all the same: one that arrives once
      the protocol is served again, before the caller that the failure woke resumes. */
  lemma ReplyAcrossServes(body: int)
    ensures var m := Inbound("1", false, body);
            var es := [Call, Sent("1", true), FailAll, Serve, Arrive(m), Wake("1")];
            && Legal(START, es)
            && After(es).log == [Registered("1"), AllFailed, ServedAgain, Arrived(m, true), Finished("1", Answered(m))]
  {
    var m := Inbound("1", false, body);
    assert Decimal(1) == "1";
    var s1 := Next(START, Call);
    var s2 := Next(s1, Sent("1", true));
    var s3 := Next(s2, FailAll);
    var s4 := Next(s3, Serve);
    var s5 := Next(s4, Arrive(m));
    var s6 := Next(s5, Wake("1"));
    assert s6.log == [Registered("1"), AllFailed, ServedAgain, Arrived(m, true), Finished("1", Answered(m))];
    Run(s5, Wake("1"), []);
    Run(s4, Arrive(m), [Wake("1")]);
    Run(s3, Serve, [Arrive(m), Wake("1")]);
    Run(s2, FailAll, [Serve, Arrive(m), Wake("1")]);
    Run(s1, Sent("1", true), [FailAll, Serve, Arrive(m), Wake("1")]);
    Run(START, Call, [Sent("1", true), FailAll, Serve, Arrive(m), Wake("1")]);
  }

  lemma Run(s: State, e: Event, es: seq<Event>)
    requires Enabled(s, e) && Legal(Next(s, e), es)
    ensures Legal(s, [e] + es) && Exec(s, [e] + es) == Exec(Next(s, e), es)
  {
    assert ([e] + es)[1..] == es;
  }

  /** Until the protocol is served again, then, no call ends in a reply, whenever it registered. */
  lemma NoReplyAfterFailure(es: seq<Event>, k: nat)
    requires Legal(START, es) && k < |After(es).log|
    requires Failed(After(es).log[..k]) && After(es).log[k].Finished?
    ensures !After(es).log[k].result.Answered? && !After(es).log[k].result.ApiError?
  {
    var log := After(es).log;
    var id := log[k].id;
    Reached(id, es);
    StepAt(id, log, k);
    StoppedMeans(id, log[..k]);
  }
}
