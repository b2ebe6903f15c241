/** What a reconnection reports about the accounts it found. */
module RestoreProofs {
  import opened Collections
  import opened Sessions
  import opened Backoff
  import opened Replies
  import opened RecoveryProofs
  import opened Recovery

  // ---------------------------------------------------------------------
  // What is reported, and about which accounts
  // ---------------------------------------------------------------------

  function ResultsAfter(before: seq<bool>, e: Event): seq<bool> {
    match e
    case LinkRestored => []
    case AccountRestored(expired, reply) => if !expired && reply == Answered then before else before + [false]
    case AccountSettled(ok) => before + [ok]
    case _ => before
  }

  /** How it went for each account since the link last came back, in order: not at
      all, if the server did not accept it, and otherwise as its settling went. */
  ghost function Results(es: seq<Event>): seq<bool> {
    if es == [] then [] else ResultsAfter(Results(es[..|es| - 1]), es[|es| - 1])
  }

  /** The accounts for which it went this way, in order. */
  ghost function Picked(ids: seq<AccountId>, results: seq<bool>, way: bool): seq<AccountId>
    requires |ids| == |results|
    decreases |ids|
  {
    if ids == [] then []
    else
      var n := |ids| - 1;
      Picked(ids[..n], results[..n], way) + if results[n] == way then [ids[n]] else []
  }

  lemma PickedOn(ids: seq<AccountId>, results: seq<bool>, way: bool, a: AccountId, ok: bool)
    requires |ids| == |results|
    ensures Picked(ids + [a], results + [ok], way) == Picked(ids, results, way) + if ok == way then [a] else []
  {
    assert (ids + [a])[..|ids|] == ids && (results + [ok])[..|ids|] == results;
  }

  ghost predicate Tallies(r: Restorer, results: seq<bool>) {
    match r
    case Absent => true
    case RestoringApp => results == []
    case Restoring(todo, _, restored, failed, snapshot) =>
      && Distinct(snapshot) && |results| + |todo| == |snapshot| && Ids(todo) == snapshot[|results|..]
      && restored == Picked(snapshot[..|results|], results, true)
      && failed == Picked(snapshot[..|results|], results, false)
  }

  /** What a report says, against what happened. */
  ghost predicate SaysTrue(e: Entry, results: seq<bool>) {
    e.Reconnected? && e.appRestored ==>
      && Distinct(e.snapshot) && |results| == |e.snapshot|
      && e.restored == Picked(e.snapshot, results, true) && e.failed == Picked(e.snapshot, results, false)
  }

  lemma {:induction false} IdsOf(s: Store, order: seq<AccountId>)
    requires forall a | a in order :: a in s.accounts && s.accounts[a].credentials.accountId == a
    ensures Ids(CredentialsIn(s, order)) == order
  {
    if order != [] {
      var a := order[0];
      assert a in order;
      assert a in s.accounts;
      assert order == [order[0]] + order[1..];
      IdsOf(s, order[1..]);
      var c := s.accounts[order[0]].credentials;
      var rest := CredentialsIn(s, order[1..]);
      assert CredentialsIn(s, order) == [c] + rest;
      assert ([c] + rest)[1..] == rest;
    }
  }

  lemma {:induction false} IdsLength(todo: seq<Credentials>)
    ensures |Ids(todo)| == |todo|
  {
    if todo != [] { IdsLength(todo[1..]); }
  }

  lemma Advance(snapshot: seq<AccountId>, n: nat, a: AccountId, rest: seq<AccountId>)
    requires n <= |snapshot| && snapshot[n..] == [a] + rest
    ensures n < |snapshot| && snapshot[..n + 1] == snapshot[..n] + [a] && snapshot[n + 1..] == rest
  {
    assert snapshot[n] == snapshot[n..][0];
    assert snapshot[n + 1..] == snapshot[n..][1..];
  }

  lemma NextTallies(s: State, ok: bool, results: seq<bool>)
    requires s.restorer.Restoring? && s.restorer.todo != [] && Tallies(s.restorer, results)
    ensures var s' := NextAccount(s, s.restorer, ok);
            && Tallies(s'.restorer, results + [ok])
            && (s'.log != s.log ==> s'.log == s.log + [s'.log[|s.log|]] && SaysTrue(s'.log[|s.log|], results + [ok]))
  {
    var r := s.restorer;
    var n, a, rest := |results|, r.todo[0].accountId, Ids(r.todo[1..]);
    Advance(r.snapshot, n, a, rest);
    PickedOn(r.snapshot[..n], results, true, a, ok);
    PickedOn(r.snapshot[..n], results, false, a, ok);
    IdsLength(r.todo[1..]);
    if |r.todo| == 1 { assert r.snapshot[..n + 1] == r.snapshot; }
  }

  lemma BeginTallies(p: Policy, s: State, ok: bool)
    requires WellFormed(s.store)
    ensures var s' := AfterAppRestored(p, s, ok);
            && Tallies(s'.restorer, [])
            && (s'.log != s.log ==> s'.log == s.log + [s'.log[|s.log|]] && SaysTrue(s'.log[|s.log|], []))
  {
    IdsOf(s.store, s.store.order);
    IdsLength(AllCredentials(s.store));
    assert Ids(AllCredentials(s.store))[0..] == Ids(AllCredentials(s.store));
  }

  lemma StepTallies(p: Policy, s: State, e: Event, es: seq<Event>)
    requires WellFormed(s.store) && Enabled(s, e) && Tallies(s.restorer, Results(es))
    ensures var s', results := Next(p, s, e), Results(es + [e]);
            && Tallies(s'.restorer, results)
            && forall k | |s.log| <= k < |s'.log| :: SaysTrue(s'.log[k], results)
  {
    ResultsOn(es, e);
    match e
    case AppRestored(ok) => BeginTallies(p, s, ok);
    case AccountSettled(ok) => NextTallies(s, ok, Results(es));
    case AccountRestored(expired, reply) => RestoredTallies(p, s, expired, reply, Results(es));
    case LinkRestored =>
    case _ => StepFramed(p, s, e);
  }

  lemma ResultsOn(es: seq<Event>, e: Event)
    ensures Results(es + [e]) == ResultsAfter(Results(es), e)
  {
    assert (es + [e])[..|es|] == es;
  }

  lemma RestoredTallies(p: Policy, s: State, expired: bool, reply: Reply, results: seq<bool>)
    requires Enabled(s, AccountRestored(expired, reply)) && Tallies(s.restorer, results)
    ensures var s' := Next(p, s, AccountRestored(expired, reply));
            var after := if !expired && reply == Answered then results else results + [false];
            && Tallies(s'.restorer, after)
            && forall k | |s.log| <= k < |s'.log| :: SaysTrue(s'.log[k], after)
  {
    if expired || reply != Answered { NextTallies(s, false, results); }
  }

  /** Each report is true of some results. */
  ghost predicate AllTrue(log: seq<Entry>) { forall k | 0 <= k < |log| :: IsTrue(log[k]) }

  ghost predicate IsTrue(e: Entry) { exists results: seq<bool> :: SaysTrue(e, results) }

  lemma {:induction false} RunTallies(p: Policy, now: real, es: seq<Event>)
    requires Legal(p, Start(now), es)
    ensures Tallies(Exec(p, Start(now), es).restorer, Results(es)) && AllTrue(Exec(p, Start(now), es).log)
    decreases |es|
  {
    if es != [] {
      var before, last := es[..|es| - 1], es[|es| - 1];
      Snoc(p, Start(now), es);
      RunTallies(p, now, before);
      LastTallies(p, now, before, last);
      assert es == before + [last];
    }
  }

  lemma LastTallies(p: Policy, now: real, es: seq<Event>, e: Event)
    requires Legal(p, Start(now), es) && Enabled(Exec(p, Start(now), es), e)
    requires Tallies(Exec(p, Start(now), es).restorer, Results(es)) && AllTrue(Exec(p, Start(now), es).log)
    ensures var s, s' := Exec(p, Start(now), es), Next(p, Exec(p, Start(now), es), e);
            && Tallies(s'.restorer, Results(es + [e])) && AllTrue(s'.log)
            && forall k | |s.log| <= k < |s'.log| :: SaysTrue(s'.log[k], Results(es + [e]))
  {
    var s := Exec(p, Start(now), es);
    RunWakes(p, Start(now), es);
    StepTallies(p, s, e, es);
    StepFramed(p, s, e);
    var log' := Next(p, s, e).log;
    forall k | 0 <= k < |log'| ensures IsTrue(log'[k]) {
      if k < |s.log| {
        assert log'[k] == log'[..|s.log|][k] && IsTrue(s.log[k]);
      } else {
        assert SaysTrue(log'[k], Results(es + [e]));
      }
    }
  }

  /** Every reconnection that got the application back reports each account it
      found exactly once, as restored or as failed, oldest first in both lists. */
  lemma ReportsPartitionTheSnapshot(p: Policy, now: real, es: seq<Event>, k: nat)
    requires Legal(p, Start(now), es)
    requires k < |Exec(p, Start(now), es).log|
    requires var e := Exec(p, Start(now), es).log[k]; e.Reconnected? && e.appRestored
    ensures var e := Exec(p, Start(now), es).log[k];
            && Distinct(e.snapshot)
            && (exists results :: |results| == |e.snapshot|
                  && e.restored == Picked(e.snapshot, results, true) && e.failed == Picked(e.snapshot, results, false))
            && (forall a :: a in e.snapshot <==> a in e.restored || a in e.failed)
            && (forall a :: !(a in e.restored && a in e.failed))
            && |e.restored| + |e.failed| == |e.snapshot|
  {
    RunTallies(p, now, es);
    var e := Exec(p, Start(now), es).log[k];
    assert IsTrue(e);
    var results: seq<bool> :| SaysTrue(e, results);
    PickedMembers(e.snapshot, results, true);
    PickedMembers(e.snapshot, results, false);
    PickedApart(e.snapshot, results);
  }

  lemma {:induction false} PickedApart(ids: seq<AccountId>, results: seq<bool>)
    requires |ids| == |results| && Distinct(ids)
    ensures |Picked(ids, results, true)| + |Picked(ids, results, false)| == |ids|
    ensures forall a :: a in ids <==> a in Picked(ids, results, true) || a in Picked(ids, results, false)
    ensures forall a :: !(a in Picked(ids, results, true) && a in Picked(ids, results, false))
    decreases |ids|
  {
    if ids != [] {
      var n := |ids| - 1;
      PickedApart(ids[..n], results[..n]);
      assert ids == ids[..n] + [ids[n]];
      assert ids[n] !in ids[..n];
    }
  }

  /** The snapshot is every account held when the application came back. */
  lemma SnapshotIsEveryAccount(p: Policy, s: State)
    requires WellFormed(s.store) && s.store.order != [] && Enabled(s, AppRestored(true))
    ensures var r := Next(p, s, AppRestored(true)).restorer; r.Restoring? && r.snapshot == s.store.order
  {
    IdsOf(s.store, s.store.order);
  }

  /** In every run, the report that a step makes of a reconnection names as restored
      exactly those accounts that the server has accepted since the link came back
      and whose settling went well, and as failed exactly the others. */
  lemma ReportSaysWhatHappened(p: Policy, now: real, es: seq<Event>, e: Event)
    requires Legal(p, Start(now), es) && Enabled(Exec(p, Start(now), es), e)
    requires var log, log' := Exec(p, Start(now), es).log, Next(p, Exec(p, Start(now), es), e).log;
             |log| < |log'| && log'[|log|].Reconnected? && log'[|log|].appRestored
    ensures var report, results := Next(p, Exec(p, Start(now), es), e).log[|Exec(p, Start(now), es).log|], Results(es + [e]);
            && |results| == |report.snapshot|
            && report.restored == Picked(report.snapshot, results, true)
            && report.failed == Picked(report.snapshot, results, false)
            && forall i | 0 <= i < |results| ::
                 (report.snapshot[i] in report.restored <==> results[i]) && (report.snapshot[i] in report.failed <==> !results[i])
  {
    RunTallies(p, now, es);
    LastTallies(p, now, es, e);
    var report, results := Next(p, Exec(p, Start(now), es), e).log[|Exec(p, Start(now), es).log|], Results(es + [e]);
    assert SaysTrue(report, results);
    PickedMembers(report.snapshot, results, true);
    PickedMembers(report.snapshot, results, false);
  }

  lemma {:induction false} PickedMembers(ids: seq<AccountId>, results: seq<bool>, way: bool)
    requires |ids| == |results| && Distinct(ids)
    ensures forall a | a in Picked(ids, results, way) :: a in ids
    ensures forall i | 0 <= i < |ids| :: ids[i] in Picked(ids, results, way) <==> results[i] == way
    decreases |ids|
  {
    if ids != [] {
      var n := |ids| - 1;
      var before := Picked(ids[..n], results[..n], way);
      PickedMembers(ids[..n], results[..n], way);
      assert forall i | 0 <= i < n :: ids[..n][i] == ids[i] && ids[i] != ids[n];
      assert ids[n] !in before;
      assert forall a | a in before :: a in ids;
    }
  }
}
