/** Reported disconnects: what is announced, and on what evidence. */
module CheckProofs {
  import opened Sessions
  import opened Backoff
  import opened Replies
  import opened Recovery
  import RP = RecoveryProofs

  /** The checks of one account, as the log tells them. */
  datatype Story = Quiet | InProbe | Confirmed | Broken

  /** Refused, and not for the token's sake: what the client takes for a session that is gone. */
  predicate Refuses(reply: Reply) { reply.ApiError? && reply.code != TokenFailure }

  function Tell(story: Story, a: AccountId, e: Entry): Story {
    match e
    case ProbeBegun(b, authorized) =>
      if b != a then story else if story == Quiet && authorized then InProbe else Broken
    case ProbeEnded(b, reply) =>
      if b != a then story else if story != InProbe then Broken else if Refuses(reply) then Confirmed else Quiet
    case Disconnected(b) => if b != a then story else if story == Confirmed then Quiet else Broken
    case _ => story
  }

  function Read(a: AccountId, log: seq<Entry>): Story {
    if log == [] then Quiet else Tell(Read(a, log[..|log| - 1]), a, log[|log| - 1])
  }

  lemma ReadOn(a: AccountId, log: seq<Entry>, e: Entry)
    ensures Read(a, log + [e]) == Tell(Read(a, log), a, e)
  {
    assert (log + [e])[..|log|] == log;
  }

  /** Each account being verified is verified by exactly one check. */
  ghost predicate OneCheckEach(checks: map<TaskId, Check>, verifying: set<AccountId>) {
    && (forall t | t in checks :: checks[t].account in verifying)
    && (forall t, u | t in checks && u in checks && checks[t].account == checks[u].account :: t == u)
    && (forall a | a in verifying :: exists t :: t in checks && checks[t].account == a)
  }

  ghost predicate ProbeInFlight(checks: map<TaskId, Check>, a: AccountId) {
    exists t :: t in checks && checks[t] == Probing(a)
  }

  ghost predicate Fits(s: State, a: AccountId, story: Story) {
    && OneCheckEach(s.checks, s.verifying)
    && story == if ProbeInFlight(s.checks, a) then InProbe else Quiet
  }

  lemma AfterBegin(s: State, t: TaskId, b: AccountId, a: AccountId, story: Story)
    requires Fits(s, a, story) && t !in s.checks
    requires IsAuthorized(s.store, b) && b !in s.verifying
    ensures Fits(BeginCheck(s, t, b), a, Tell(story, a, ProbeBegun(b, true)))
  {
    var s' := BeginCheck(s, t, b);
    assert forall u :: u in s'.checks <==> u == t || u in s.checks;
    assert s'.checks[t] == Probing(b);
    forall c | c in s'.verifying ensures exists u :: u in s'.checks && s'.checks[u].account == c {
      if c != b {
        var u :| u in s.checks && s.checks[u].account == c;
        assert s'.checks[u] == s.checks[u];
      }
    }
    if ProbeInFlight(s.checks, a) {
      var u :| u in s.checks && s.checks[u] == Probing(a);
      assert s'.checks[u] == Probing(a);
    }
  }

  lemma AfterEnd(s: State, t: TaskId, a: AccountId, story: Story)
    requires Fits(s, a, story) && t in s.checks
    ensures Fits(EndCheck(s, t), a, if s.checks[t] == Probing(a) then Quiet else story)
  {
    var s' := EndCheck(s, t);
    forall c | c in s'.verifying ensures exists u :: u in s'.checks && s'.checks[u].account == c {
      var u :| u in s.checks && s.checks[u].account == c;
      assert u in s'.checks;
    }
    if ProbeInFlight(s.checks, a) && s.checks[t] != Probing(a) {
      var u :| u in s.checks && s.checks[u] == Probing(a);
      assert u in s'.checks;
    }
  }

  lemma AfterGone(s: State, t: TaskId, reply: Reply, a: AccountId, story: Story)
    requires Refuses(reply) && Fits(s, a, story) && t in s.checks && s.checks[t].Probing?
    ensures var b := s.checks[t].account;
            Fits(AfterProbe(s, t, reply), a, Tell(Tell(story, a, ProbeEnded(b, reply)), a, Disconnected(b)))
  {
    var b := s.checks[t].account;
    var s' := AfterProbe(s, t, reply);
    assert s'.checks[t] == Reporting(b);
    forall c | c in s'.verifying ensures exists u :: u in s'.checks && s'.checks[u].account == c {
      var u :| u in s.checks && s.checks[u].account == c;
      assert u in s'.checks && s'.checks[u].account == c;
    }
    if ProbeInFlight(s.checks, a) && a != b {
      var u :| u in s.checks && s.checks[u] == Probing(a);
      assert s'.checks[u] == Probing(a);
    }
  }

  ghost predicate Inv(s: State, a: AccountId) { Fits(s, a, Read(a, s.log)) }

  lemma SameChecks(s: State, s': State, a: AccountId)
    requires Inv(s, a) && s'.checks == s.checks && s'.verifying == s.verifying && s'.log == s.log
    ensures Inv(s', a)
  {
    assert Fits(s', a, Read(a, s.log));
  }

  lemma SameChecksReported(s: State, s': State, a: AccountId, x: Entry)
    requires Inv(s, a) && s'.checks == s.checks && s'.verifying == s.verifying
    requires (x.Reconnected? || x.Ready?) && s'.log == s.log + [x]
    ensures Inv(s', a)
  {
    ReadOn(a, s.log, x);
    assert Fits(s', a, Read(a, s.log));
  }

  lemma BeginInv(s: State, t: TaskId, b: AccountId, a: AccountId)
    requires Inv(s, a) && t !in s.checks
    ensures Inv(BeginCheck(s, t, b), a)
  {
    if IsAuthorized(s.store, b) && b !in s.verifying {
      ReadOn(a, s.log, ProbeBegun(b, true));
      AfterBegin(s, t, b, a, Read(a, s.log));
    }
  }

  lemma RefusedInv(s: State, t: TaskId, reply: Reply, a: AccountId)
    requires Inv(s, a) && t in s.checks && s.checks[t].Probing? && Refuses(reply)
    ensures Inv(AfterProbe(s, t, reply), a)
  {
    var b := s.checks[t].account;
    ReadOn(a, s.log, ProbeEnded(b, reply));
    ReadOn(a, s.log + [ProbeEnded(b, reply)], Disconnected(b));
    AfterGone(s, t, reply, a, Read(a, s.log));
  }

  lemma EndInv(s: State, t: TaskId, a: AccountId)
    requires Inv(s, a) && t in s.checks && !s.checks[t].Probing?
    ensures Inv(EndCheck(s, t), a)
  {
    AfterEnd(s, t, a, Read(a, s.log));
  }

  /** A check that ends without a refusal, answered or cancelled. */
  lemma UnrefusedInv(s: State, t: TaskId, reply: Reply, a: AccountId)
    requires Inv(s, a) && t in s.checks && s.checks[t].Probing? && !Refuses(reply)
    ensures Inv(EndCheck(s.(log := s.log + [ProbeEnded(s.checks[t].account, reply)]), t), a)
  {
    ReadOn(a, s.log, ProbeEnded(s.checks[t].account, reply));
    AfterEnd(s, t, a, Read(a, s.log));
  }

  lemma StepInv(p: Policy, s: State, e: Event, a: AccountId)
    requires Inv(s, a) && Enabled(s, e)
    ensures Inv(Next(p, s, e), a)
  {
    match e
    case CheckDisconnect(t, b) => BeginInv(s, t, b, a);
    case Probed(t, reply) => if Refuses(reply) { RefusedInv(s, t, reply, a); } else { UnrefusedInv(s, t, reply, a); }
    case Emitted(t) => EndInv(s, t, a);
    case CheckCancelled(t) => if s.checks[t].Probing? { UnrefusedInv(s, t, NoAnswer, a); } else { EndInv(s, t, a); }
    case _ => OtherSteps(p, s, e, a);
  }

  lemma OtherSteps(p: Policy, s: State, e: Event, a: AccountId)
    requires Inv(s, a) && Enabled(s, e) && !RP.IsCheckStep(e)
    ensures Inv(Next(p, s, e), a)
  {
    var s' := Next(p, s, e);
    RP.StepFramed(p, s, e);
    if s'.log == s.log {
      SameChecks(s, s', a);
    } else {
      assert s'.log == s.log + [s'.log[|s.log|]];
      SameChecksReported(s, s', a, s'.log[|s.log|]);
    }
  }

  lemma {:induction false} RunInv(p: Policy, s: State, es: seq<Event>, a: AccountId)
    requires Inv(s, a) && Legal(p, s, es)
    ensures Inv(Exec(p, s, es), a)
    decreases es
  {
    if es != [] {
      StepInv(p, s, es[0], a);
      RunInv(p, Next(p, s, es[0]), es[1..], a);
    }
  }

  lemma Reached(p: Policy, now: real, es: seq<Event>, a: AccountId)
    requires Legal(p, Start(now), es)
    ensures Inv(Exec(p, Start(now), es), a)
  {
    RunInv(p, Start(now), es, a);
  }

  // ---------------------------------------------------------------------
  // What a sound story says about positions in the log
  // ---------------------------------------------------------------------

  lemma {:induction false} Prefix(a: AccountId, log: seq<Entry>, n: nat)
    requires n <= |log| && Read(a, log) != Broken
    ensures Read(a, log[..n]) != Broken
    decreases |log|
  {
    if n == |log| {
      assert log[..n] == log;
    } else {
      Prefix(a, log[..|log| - 1], n);
      assert log[..|log| - 1][..n] == log[..n];
    }
  }

  lemma StepAt(a: AccountId, log: seq<Entry>, k: nat)
    requires k < |log| && Read(a, log) != Broken
    ensures Read(a, log[..k + 1]) == Tell(Read(a, log[..k]), a, log[k]) != Broken
  {
    Prefix(a, log, k + 1);
    ReadOn(a, log[..k], log[k]);
    assert log[..k + 1] == log[..k] + [log[k]];
  }

  /** An entry about the checks of this account. */
  predicate Concerns(e: Entry, a: AccountId) {
    match e
    case ProbeBegun(b, _) => b == a
    case ProbeEnded(b, _) => b == a
    case Disconnected(b) => b == a
    case _ => false
  }

  /** The last entry before position `n` that is about this account. */
  ghost predicate LastBefore(log: seq<Entry>, n: nat, a: AccountId, i: nat) {
    i < n <= |log| && Concerns(log[i], a) && forall j | i < j < n :: !Concerns(log[j], a)
  }

  predicate EndsRefused(e: Entry, a: AccountId) { e.ProbeEnded? && e.account == a && Refuses(e.reply) }

  lemma {:induction false} LastMeans(a: AccountId, log: seq<Entry>, n: nat) returns (i: nat)
    requires n <= |log| && Read(a, log) != Broken && Read(a, log[..n]) != Quiet
    ensures LastBefore(log, n, a, i)
    ensures if Read(a, log[..n]) == InProbe then log[i] == ProbeBegun(a, true) else EndsRefused(log[i], a)
    decreases n
  {
    Prefix(a, log, n);
    StepAt(a, log, n - 1);
    if Concerns(log[n - 1], a) {
      i := n - 1;
    } else {
      i := LastMeans(a, log, n - 1);
    }
  }

  /** Every announced disconnect rests on a probe of that account which the server
      refused with an error that is not about the token, begun while the store held the account as authorized, with
      nothing else concerning the account in between. */
  lemma DisconnectsAreSound(p: Policy, now: real, es: seq<Event>, k: nat, a: AccountId)
    requires Legal(p, Start(now), es)
    requires k < |Exec(p, Start(now), es).log| && Exec(p, Start(now), es).log[k] == Disconnected(a)
    ensures var log := Exec(p, Start(now), es).log;
            exists i: nat, j: nat :: LastBefore(log, k, a, j) && LastBefore(log, j, a, i)
              && log[i] == ProbeBegun(a, true) && EndsRefused(log[j], a)
  {
    var log := Exec(p, Start(now), es).log;
    Reached(p, now, es, a);
    StepAt(a, log, k);
    var j := LastMeans(a, log, k);
    StepAt(a, log, j);
    var i := LastMeans(a, log, j);
    assert LastBefore(log, k, a, j) && LastBefore(log, j, a, i);
  }

  /** No probe is ever sent for an account the store does not hold as authorized. */
  lemma ProbesAreOfAuthorized(p: Policy, now: real, es: seq<Event>, k: nat)
    requires Legal(p, Start(now), es) && k < |Exec(p, Start(now), es).log|
    requires Exec(p, Start(now), es).log[k].ProbeBegun?
    ensures Exec(p, Start(now), es).log[k].authorized
  {
    var log := Exec(p, Start(now), es).log;
    Reached(p, now, es, log[k].account);
    StepAt(log[k].account, log, k);
  }

  /** At most one check of an account is under way, and one is exactly while the
      account is marked as being verified. */
  lemma OneCheckAtATime(p: Policy, now: real, es: seq<Event>, a: AccountId)
    requires Legal(p, Start(now), es)
    ensures var s := Exec(p, Start(now), es);
            && (a in s.verifying <==> exists t :: t in s.checks && s.checks[t].account == a)
            && (forall t, u | t in s.checks && u in s.checks && s.checks[t].account == a == s.checks[u].account :: t == u)
  {
    Reached(p, now, es, a);
  }

  // ---------------------------------------------------------------------
  // Every confirmed drop is announced, and nothing else comes of a check
  // ---------------------------------------------------------------------

  /** Refused probes and announcements follow each other at once, one for one. */
  ghost predicate AnnouncedAtOnce(log: seq<Entry>, a: AccountId) {
    && (log != [] ==> log[0] != Disconnected(a) && !EndsRefused(log[|log| - 1], a))
    && forall k | 0 <= k < |log| - 1 :: EndsRefused(log[k], a) <==> log[k + 1] == Disconnected(a)
  }

  lemma {:induction false} RunAnnounced(p: Policy, s: State, es: seq<Event>, a: AccountId)
    requires Legal(p, s, es) && AnnouncedAtOnce(s.log, a)
    ensures AnnouncedAtOnce(Exec(p, s, es).log, a)
    decreases es
  {
    if es != [] {
      StepAnnounced(p, s, es[0], a);
      RunAnnounced(p, Next(p, s, es[0]), es[1..], a);
    }
  }

  lemma StepAnnounced(p: Policy, s: State, e: Event, a: AccountId)
    requires Enabled(s, e) && AnnouncedAtOnce(s.log, a)
    ensures AnnouncedAtOnce(Next(p, s, e).log, a)
  {
    StepWrites(p, s, e);
    var log, log' := s.log, Next(p, s, e).log;
    assert forall k | 0 <= k < |log| :: log'[k] == log[k];
  }

  /** What any one step adds to the log. */
  lemma StepWrites(p: Policy, s: State, e: Event)
    requires Enabled(s, e)
    ensures var log, log' := s.log, Next(p, s, e).log;
            || log' == log
            || (exists x: Entry :: !x.Disconnected? && !(x.ProbeEnded? && Refuses(x.reply)) && log' == log + [x])
            || (exists b, r :: Refuses(r) && log' == log + [ProbeEnded(b, r), Disconnected(b)])
  {
    var log, log' := s.log, Next(p, s, e).log;
    if e.Probed? && Refuses(e.reply) {
      assert log' == log + [ProbeEnded(s.checks[e.task].account, e.reply), Disconnected(s.checks[e.task].account)];
    } else if log' != log {
      assert log' == log + [log'[|log|]];
    }
  }

  /** In every run a disconnect is announced exactly when a probe has just been
      refused with an error that is not about the token. */
  lemma AnnouncedIffRefused(p: Policy, now: real, es: seq<Event>, k: nat, a: AccountId)
    requires Legal(p, Start(now), es) && k < |Exec(p, Start(now), es).log|
    ensures var log := Exec(p, Start(now), es).log;
            && (log[k] == Disconnected(a) <==> k > 0 && EndsRefused(log[k - 1], a))
            && (EndsRefused(log[k], a) <==> k + 1 < |log| && log[k + 1] == Disconnected(a))
  {
    RunAnnounced(p, Start(now), es, a);
  }

  /** A check is over, and its account can be checked again, as soon as its probe has
      ended without a refusal, the refusal has been announced, or it is cancelled;
      until then the account stays marked. */
  lemma CheckIsOverWhen(p: Policy, now: real, es: seq<Event>, e: Event, t: TaskId)
    requires Legal(p, Start(now), es) && Enabled(Exec(p, Start(now), es), e) && t in Exec(p, Start(now), es).checks
    ensures var s, s' := Exec(p, Start(now), es), Next(p, Exec(p, Start(now), es), e);
            var over := e in {Emitted(t), CheckCancelled(t)} || (e.Probed? && e.task == t && !Refuses(e.reply));
            && (t !in s'.checks <==> over)
            && (s.checks[t].account !in s'.verifying <==> over)
  {
    var s := Exec(p, Start(now), es);
    Reached(p, now, es, s.checks[t].account);
    if !RP.IsCheckStep(e) { RP.StepFramed(p, s, e); }
  }

  /** However many checks begin, end and are cancelled, they leave the sessions and
      the recovery loop alone for as long as nothing is announced; and once
      something is, the loop's event is set. */
  lemma {:induction false} ChecksAreSilentUnlessAnnounced(p: Policy, s: State, es: seq<Event>)
    requires Legal(p, s, es) && forall e | e in es :: RP.IsCheckStep(e)
    ensures var s' := Exec(p, s, es);
            && |s.log| <= |s'.log| && s'.log[..|s.log|] == s.log
            && s'.raised in {s.raised, s.raised + {s.signal}}
            && if forall i | |s.log| <= i < |s'.log| :: !s'.log[i].Disconnected?
               then s' == s.(verifying := s'.verifying, checks := s'.checks, log := s'.log)
               else s.signal in s'.raised
    decreases es
  {
    if es != [] {
      var s1 := Next(p, s, es[0]);
      CheckStep(p, s, es[0]);
      assert es[0] in es && forall e | e in es[1..] :: e in es;
      ChecksAreSilentUnlessAnnounced(p, s1, es[1..]);
      var s' := Exec(p, s1, es[1..]);
      assert s'.log[..|s.log|] == s'.log[..|s1.log|][..|s.log|];
      forall i | |s.log| <= i < |s1.log| ensures s'.log[i] == s1.log[i] { assert s'.log[i] == s'.log[..|s1.log|][i]; }
      assert s1.signal == s.signal;
    } else {
      assert s.log[..|s.log|] == s.log;
    }
  }

  lemma CheckStep(p: Policy, s: State, e: Event)
    requires Enabled(s, e) && RP.IsCheckStep(e)
    ensures var s' := Next(p, s, e);
            && |s.log| <= |s'.log| && s'.log[..|s.log|] == s.log && s'.signal == s.signal
            && if s'.log != s.log && s'.log[|s'.log| - 1].Disconnected?
               then s'.raised == s.raised + {s.signal}
               else s' == s.(verifying := s'.verifying, checks := s'.checks, log := s'.log)
                    && forall i | |s.log| <= i < |s'.log| :: !s'.log[i].Disconnected?
  {
  }
}
