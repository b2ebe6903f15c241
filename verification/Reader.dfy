/** The reader's loop: what it does with each outcome of a read, and when it
    declares the link lost. */
module Reader {

  const MAX_CONSECUTIVE_READ_ERRORS := 10

  datatype Outcome =
    | Delivered       // a message read, decoded and dispatched
    | Faulty          // any error that concerns this message alone
    | BadFrame        // the stream can no longer be told apart into frames
    | Gone            // closed, ended or broken underneath
    | NotConnected    // the transport has been closed by a reconnection
    | Cancelled

  /** One turn of the loop: whether the protocol is running as it starts, how the
      read ends, and whether the protocol is running still. */
  datatype Turn = Turn(running: bool, outcome: Outcome, stillRunning: bool)

  datatype Act = Dispatch(turn: nat) | Pause(turn: nat) | Report

  /** This turn and the ones before it make up a full run of faulty reads. */
  predicate TooManyFaults(turns: seq<Turn>, k: nat)
    requires k < |turns|
  {
    && MAX_CONSECUTIVE_READ_ERRORS <= k + 1
    && forall j | k + 1 - MAX_CONSECUTIVE_READ_ERRORS <= j <= k :: turns[j].outcome.Faulty?
  }

  /** The link is lost, as far as this turn can tell. */
  predicate Lost(turns: seq<Turn>, k: nat)
    requires k < |turns|
  {
    turns[k].outcome.BadFrame? || turns[k].outcome.Gone? || TooManyFaults(turns, k)
  }

  /** The reader goes no further than this turn. */
  predicate Ends(turns: seq<Turn>, k: nat)
    requires k < |turns|
  {
    !turns[k].running || Lost(turns, k) || turns[k].outcome.NotConnected? || turns[k].outcome.Cancelled?
  }

  /** Each message dispatched once and in order, with a pause after each faulty one. */
  function Handled(turns: seq<Turn>, n: nat): (acts: seq<Act>)
    requires n <= |turns|
  {
    if n == 0 then []
    else Handled(turns, n - 1) + (match turns[n - 1].outcome
                                  case Delivered => [Dispatch(n - 1)]
                                  case Faulty => [Pause(n - 1)]
                                  case _ => [])
  }

  /** The reader stops at the first turn that ends it, and reports the link lost
      exactly when that turn shows it and the protocol is not itself stopping. */
  method ReaderLoop(turns: seq<Turn>) returns (stop: nat, acts: seq<Act>)
    ensures stop <= |turns|
    ensures forall k | 0 <= k < stop :: !Ends(turns, k)
    ensures stop < |turns| ==> Ends(turns, stop)
    ensures var reports := stop < |turns| && turns[stop].running && Lost(turns, stop) && turns[stop].stillRunning;
            acts == Handled(turns, stop) + (if reports then [Report] else [])
    ensures Report in acts <==>
      && stop < |turns| && turns[stop].running && turns[stop].stillRunning
      && (turns[stop].outcome in {BadFrame, Gone}
          || (stop >= 9 && forall j | stop - 9 <= j <= stop :: turns[j].outcome == Faulty))
  {
    stop, acts := 0, [];
    var consecutiveErrors := 0;
    while stop < |turns| && turns[stop].running
      invariant stop <= |turns| && acts == Handled(turns, stop)
      invariant 0 <= consecutiveErrors <= stop && consecutiveErrors < MAX_CONSECUTIVE_READ_ERRORS
      invariant forall j | stop - consecutiveErrors <= j < stop :: turns[j].outcome.Faulty?
      invariant consecutiveErrors < stop ==> !turns[stop - consecutiveErrors - 1].outcome.Faulty?
      invariant forall k | 0 <= k < stop :: !Ends(turns, k)
      decreases |turns| - stop
    {
      match turns[stop].outcome {
        case Delivered =>
          acts := acts + [Dispatch(stop)];
          consecutiveErrors := 0;
        case BadFrame | Gone =>
          if turns[stop].stillRunning { acts := acts + [Report]; }
          break;
        case NotConnected | Cancelled =>
          break;
        case Faulty =>
          consecutiveErrors := consecutiveErrors + 1;
          if consecutiveErrors >= MAX_CONSECUTIVE_READ_ERRORS {
            if turns[stop].stillRunning { acts := acts + [Report]; }
            break;
          }
          acts := acts + [Pause(stop)];
      }
      stop := stop + 1;
    }
    StoppedMeans(turns, stop, acts);
  }

  lemma StoppedMeans(turns: seq<Turn>, stop: nat, acts: seq<Act>)
    requires stop <= |turns|
    requires (forall k | 0 <= k < stop :: !Ends(turns, k)) && (stop < |turns| ==> Ends(turns, stop))
    requires var reports := stop < |turns| && turns[stop].running && Lost(turns, stop) && turns[stop].stillRunning;
             acts == Handled(turns, stop) + (if reports then [Report] else [])
    ensures Report in acts <==>
      && stop < |turns| && turns[stop].running && turns[stop].stillRunning
      && (turns[stop].outcome in {BadFrame, Gone}
          || (stop >= 9 && forall j | stop - 9 <= j <= stop :: turns[j].outcome == Faulty))
  {
    NoReportHandled(turns, stop);
    if stop < |turns| { EndsMeans(turns, stop); }
  }

  /** The reader goes no further than a turn at which the protocol has stopped, the
      stream is lost or closed, or the tenth read in a row is faulty. */
  lemma EndsMeans(turns: seq<Turn>, k: nat)
    requires k < |turns|
    ensures Ends(turns, k) <==>
      || !turns[k].running || turns[k].outcome in {BadFrame, Gone, NotConnected, Cancelled}
      || (k >= 9 && forall j | k - 9 <= j <= k :: turns[j].outcome == Faulty)
    ensures Lost(turns, k) <==>
      turns[k].outcome in {BadFrame, Gone} || (k >= 9 && forall j | k - 9 <= j <= k :: turns[j].outcome == Faulty)
  {
  }

  lemma NoReportHandled(turns: seq<Turn>, n: nat)
    requires n <= |turns|
    ensures Report !in Handled(turns, n)
  {
    DispatchedInOrder(turns, n);
  }

  /** A pause follows each faulty read, so that an error that repeats does not keep
      the loop busy. */
  lemma {:induction false} PausedIff(turns: seq<Turn>, n: nat, k: nat)
    requires n <= |turns|
    ensures Pause(k) in Handled(turns, n) <==> k < n && turns[k].outcome.Faulty?
    decreases n
  {
    if n > 0 { PausedIff(turns, n - 1, k); }
  }

  /** Which message is dispatched depends on its own turn alone, never on the
      faulty ones around it. */
  lemma {:induction false} DispatchedIff(turns: seq<Turn>, n: nat, k: nat)
    requires n <= |turns|
    ensures Dispatch(k) in Handled(turns, n) <==> k < n && turns[k].outcome.Delivered?
    decreases n
  {
    if n > 0 { DispatchedIff(turns, n - 1, k); }
  }

  predicate InTurn(acts: seq<Act>, n: nat) {
    && (forall i | 0 <= i < |acts| :: acts[i] != Report && acts[i].turn < n)
    && forall i, j | 0 <= i < j < |acts| :: acts[i].turn < acts[j].turn
  }

  lemma {:induction false} DispatchedInOrder(turns: seq<Turn>, n: nat)
    requires n <= |turns|
    ensures InTurn(Handled(turns, n), n)
    decreases n
  {
    if n > 0 {
      DispatchedInOrder(turns, n - 1);
      var before := Handled(turns, n - 1);
      assert InTurn(before + [Dispatch(n - 1)], n) && InTurn(before + [Pause(n - 1)], n) && InTurn(before + [], n);
    }
  }
}
