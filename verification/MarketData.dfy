/** The market data namespace as an object: its record of what each account has
    asked for, the six requests that change it, and the replay of it. */
module MarketData {
  import opened Collections
  import opened Subscriptions

  type AccountId = int

  datatype Sent = Sent(account: AccountId, request: Request)

  /** What an account has asked for; nothing, before its first request. */
  function Of(standing: map<AccountId, Subs>, a: AccountId): Subs {
    if a in standing then standing[a] else NONE
  }

  /** What the record becomes once a request is answered: refusals leave it alone. */
  function Recorded(standing: map<AccountId, Subs>, a: AccountId, r: Request, ok: bool): map<AccountId, Subs> {
    if ok then standing[a := Effect(Of(standing, a), r)] else standing
  }

  function OnWire(a: AccountId, rs: seq<Request>): seq<Sent> {
    seq(|rs|, i requires 0 <= i < |rs| => Sent(a, rs[i]))
  }

  class MarketDataAPI {
    var standing: map<AccountId, Subs>
    var sent: seq<Sent>                 // requests handed to the protocol, in order
    var restoreFailed: seq<AccountId>   // events published

    constructor ()
      ensures standing == map[] && sent == [] && restoreFailed == []
    {
      standing, sent, restoreFailed := map[], [], [];
    }

    method StandingFor(a: AccountId) returns (s: Subs)
      modifies `standing
      ensures s == Of(old(standing), a) && standing == old(standing)[a := s]
    {
      if a !in standing { standing := standing[a := NONE]; }
      s := standing[a];
    }

    method SubscribeSpots(a: AccountId, ids: seq<SymbolId>, ok: bool)
      modifies `standing, `sent
      ensures sent == old(sent) + [Sent(a, Request.SubscribeSpots(ids))]
      ensures standing == Recorded(old(standing), a, Request.SubscribeSpots(ids), ok)
      ensures var o := Of(old(standing), a); standing == if ok then old(standing)[a := Subs(o.spots + Elements(ids), o.trendbars, o.depth)] else old(standing)
    {
      sent := sent + [Sent(a, Request.SubscribeSpots(ids))];
      if ok {
        var s := StandingFor(a);
        standing := standing[a := s.(spots := s.spots + Elements(ids))];
      }
    }

    method UnsubscribeSpots(a: AccountId, ids: seq<SymbolId>, ok: bool)
      modifies `standing, `sent
      ensures sent == old(sent) + [Sent(a, Request.UnsubscribeSpots(ids))]
      ensures standing == Recorded(old(standing), a, Request.UnsubscribeSpots(ids), ok)
      ensures var o := Of(old(standing), a); standing == if ok then old(standing)[a := Subs(o.spots - Elements(ids), o.trendbars, o.depth)] else old(standing)
    {
      sent := sent + [Sent(a, Request.UnsubscribeSpots(ids))];
      if ok {
        var s := StandingFor(a);
        standing := standing[a := s.(spots := s.spots - Elements(ids))];
      }
    }

    method SubscribeTrendbars(a: AccountId, bar: Trendbar, ok: bool)
      modifies `standing, `sent
      ensures sent == old(sent) + [Sent(a, Request.SubscribeTrendbars(bar))]
      ensures standing == Recorded(old(standing), a, Request.SubscribeTrendbars(bar), ok)
      ensures var o := Of(old(standing), a); standing == if ok then old(standing)[a := Subs(o.spots, o.trendbars + {bar}, o.depth)] else old(standing)
    {
      sent := sent + [Sent(a, Request.SubscribeTrendbars(bar))];
      if ok {
        var s := StandingFor(a);
        standing := standing[a := s.(trendbars := s.trendbars + {bar})];
      }
    }

    method UnsubscribeTrendbars(a: AccountId, bar: Trendbar, ok: bool)
      modifies `standing, `sent
      ensures sent == old(sent) + [Sent(a, Request.UnsubscribeTrendbars(bar))]
      ensures standing == Recorded(old(standing), a, Request.UnsubscribeTrendbars(bar), ok)
      ensures var o := Of(old(standing), a); standing == if ok then old(standing)[a := Subs(o.spots, o.trendbars - {bar}, o.depth)] else old(standing)
    {
      sent := sent + [Sent(a, Request.UnsubscribeTrendbars(bar))];
      if ok {
        var s := StandingFor(a);
        standing := standing[a := s.(trendbars := s.trendbars - {bar})];
      }
    }

    method SubscribeDepth(a: AccountId, ids: seq<SymbolId>, ok: bool)
      modifies `standing, `sent
      ensures sent == old(sent) + [Sent(a, Request.SubscribeDepth(ids))]
      ensures standing == Recorded(old(standing), a, Request.SubscribeDepth(ids), ok)
      ensures var o := Of(old(standing), a); standing == if ok then old(standing)[a := Subs(o.spots, o.trendbars, o.depth + Elements(ids))] else old(standing)
    {
      sent := sent + [Sent(a, Request.SubscribeDepth(ids))];
      if ok {
        var s := StandingFor(a);
        standing := standing[a := s.(depth := s.depth + Elements(ids))];
      }
    }

    method UnsubscribeDepth(a: AccountId, ids: seq<SymbolId>, ok: bool)
      modifies `standing, `sent
      ensures sent == old(sent) + [Sent(a, Request.UnsubscribeDepth(ids))]
      ensures standing == Recorded(old(standing), a, Request.UnsubscribeDepth(ids), ok)
      ensures var o := Of(old(standing), a); standing == if ok then old(standing)[a := Subs(o.spots, o.trendbars, o.depth - Elements(ids))] else old(standing)
    {
      sent := sent + [Sent(a, Request.UnsubscribeDepth(ids))];
      if ok {
        var s := StandingFor(a);
        standing := standing[a := s.(depth := s.depth - Elements(ids))];
      }
    }

    /** Afterwards a restore sends nothing for the account. */
    method Forget(a: AccountId)
      modifies `standing
      ensures standing == old(standing) - {a} && WholeReplay(Of(standing, a)) == []
    {
      standing := standing - {a};
    }

    method RestoreSpots(a: AccountId, start: nat, answers: nat -> bool, ghost rs: seq<Request>)
      returns (done: nat, refused: bool)
      requires a in standing && Laid(rs, standing[a]) && start == 0
      modifies `standing, `sent
      ensures standing == old(standing)
      ensures Stage(a, rs, answers, start, One(standing[a].spots), done, refused, old(sent), sent)
    {
      done, refused := start, false;
      ListedSorted(standing[a].spots);
      if standing[a].spots != {} {
        assert Effect(standing[a], Request.SubscribeSpots(Listed(standing[a].spots))) == standing[a];
        SubscribeSpots(a, Listed(standing[a].spots), answers(done));
        if answers(done) { done := done + 1; } else { refused := true; }
      }
    }

    /** A trendbar that is on record already. */
    method Resubscribe(a: AccountId, bar: Trendbar, ok: bool)
      requires a in standing && bar in standing[a].trendbars
      modifies `standing, `sent
      ensures standing == old(standing) && sent == old(sent) + [Sent(a, Request.SubscribeTrendbars(bar))]
    {
      OnRecordAlready(standing, a, bar, ok);
      SubscribeTrendbars(a, bar, ok);
    }

    method RestoreTrendbars(a: AccountId, start: nat, answers: nat -> bool, ghost rs: seq<Request>)
      returns (done: nat, refused: bool)
      requires a in standing && Laid(rs, standing[a]) && start == One(standing[a].spots)
      modifies `standing, `sent
      ensures standing == old(standing)
      ensures Stage(a, rs, answers, start, |ListedBars(standing[a].trendbars)|, done, refused, old(sent), sent)
    {
      done, refused := start, false;
      var todo := ListedBars(standing[a].trendbars);
      ListedBarsSorted(standing[a].trendbars);
      for i := 0 to |todo|
        modifies `standing, `sent
        invariant standing == old(standing)
        invariant done == start + i <= |rs| && sent == old(sent) + OnWire(a, rs[start..done])
        invariant forall k: nat | start <= k < done :: answers(k)
      {
        assert todo[i] in Elements(todo);
        OneMore(a, rs, start, done);
        Resubscribe(a, todo[i], answers(done));
        if !answers(done) { refused := true; return; }
        done := done + 1;
      }
    }

    method RestoreDepth(a: AccountId, start: nat, answers: nat -> bool, ghost rs: seq<Request>)
      returns (done: nat, refused: bool)
      requires a in standing && Laid(rs, standing[a]) && start == One(standing[a].spots) + |ListedBars(standing[a].trendbars)|
      modifies `standing, `sent
      ensures standing == old(standing)
      ensures Stage(a, rs, answers, start, One(standing[a].depth), done, refused, old(sent), sent)
    {
      done, refused := start, false;
      ListedSorted(standing[a].depth);
      if standing[a].depth != {} {
        assert Effect(standing[a], Request.SubscribeDepth(Listed(standing[a].depth))) == standing[a];
        SubscribeDepth(a, Listed(standing[a].depth), answers(done));
        if answers(done) { done := done + 1; } else { refused := true; }
      }
    }

    /** The part of a restore that a refusal cuts short. */
    method Reapply(a: AccountId, answers: nat -> bool, ghost rs: seq<Request>) returns (done: nat, refused: bool)
      requires a in standing && Laid(rs, standing[a])
      modifies `standing, `sent
      ensures standing == old(standing)
      ensures Stage(a, rs, answers, 0, |rs|, done, refused, old(sent), sent)
    {
      ghost var first, bars := One(standing[a].spots), |ListedBars(standing[a].trendbars)|;

      done, refused := RestoreSpots(a, 0, answers, rs);
      if refused { return; }

      ghost var from, between := done, sent;
      done, refused := RestoreTrendbars(a, done, answers, rs);
      StagesJoin(a, rs, answers, first, bars, from, done, refused, old(sent), between, sent);
      if refused { return; }

      from, between := done, sent;
      done, refused := RestoreDepth(a, done, answers, rs);
      StagesJoin(a, rs, answers, first + bars, One(standing[a].depth), from, done, refused, old(sent), between, sent);
    }

    /** Replays the record, the k-th request being answered by answers(k). It
        stops at the first refusal and reports it; wherever that is, the record
        is what it was. */
    method Restore(a: AccountId, answers: nat -> bool) returns (done: nat)
      modifies this
      ensures standing == old(standing)
      ensures StoppedAt(WholeReplay(Of(standing, a)), answers, done)
      ensures var rs := WholeReplay(Of(standing, a));
              && sent == old(sent) + OnWire(a, if done < |rs| then rs[..done + 1] else rs)
              && restoreFailed == old(restoreFailed) + (if done < |rs| then [a] else [])
    {
      if a !in standing { return 0; }
      var refused;
      ghost var rs := WholeReplay(standing[a]);
      WholeReplayLaid(standing[a]);
      done, refused := Reapply(a, answers, rs);
      StageOfAll(a, rs, answers, done, refused, old(sent), sent);
      if refused { restoreFailed := restoreFailed + [a]; }
    }
  }

  function One(symbols: set<SymbolId>): nat { if symbols != {} then 1 else 0 }

  /** Which request of a replay is which. */
  predicate Laid(rs: seq<Request>, record: Subs) {
    var spots, bars, depth := Listed(record.spots), ListedBars(record.trendbars), Listed(record.depth);
    && InPlace(rs, spots, bars, depth)
    && (spots == [] <==> record.spots == {}) && (depth == [] <==> record.depth == {})
  }

  lemma WholeReplayLaid(record: Subs)
    ensures Laid(WholeReplay(record), record)
  {
    WholeReplayLists(record);
    ReplayIs(record, Listed(record.spots), ListedBars(record.trendbars), Listed(record.depth));
  }

  /** The requests up to here were accepted, and the next, if any, is refused. */
  predicate StoppedAt(rs: seq<Request>, answers: nat -> bool, done: nat) {
    done <= |rs| && (forall k: nat | k < done :: answers(k)) && (done < |rs| ==> !answers(done))
  }

  /** What a run of size requests of rs from start on came to, and put on the wire. */
  predicate Stage(a: AccountId, rs: seq<Request>, answers: nat -> bool, start: nat, size: nat,
                  done: nat, refused: bool, was: seq<Sent>, now: seq<Sent>)
  {
    && start <= done <= start + size <= |rs|
    && (forall k: nat | start <= k < done :: answers(k))
    && (refused <==> done < start + size)
    && (refused ==> !answers(done))
    && now == was + OnWire(a, rs[start..if refused then done + 1 else done])
  }

  lemma StageOfAll(a: AccountId, rs: seq<Request>, answers: nat -> bool, done: nat, refused: bool,
                   was: seq<Sent>, now: seq<Sent>)
    requires Stage(a, rs, answers, 0, |rs|, done, refused, was, now)
    ensures StoppedAt(rs, answers, done) && (refused <==> done < |rs|)
    ensures now == was + OnWire(a, if refused then rs[..done + 1] else rs)
  {
    assert rs[0..done] == rs[..done] && rs[..|rs|] == rs;
  }

  lemma OnRecordAlready(standing: map<AccountId, Subs>, a: AccountId, bar: Trendbar, ok: bool)
    requires a in standing && bar in standing[a].trendbars
    ensures Recorded(standing, a, Request.SubscribeTrendbars(bar), ok) == standing
  {
    assert standing[a].trendbars + {bar} == standing[a].trendbars;
  }

  lemma StagesJoin(a: AccountId, rs: seq<Request>, answers: nat -> bool, size: nat, more: nat, mid: nat,
                   done: nat, refused: bool, was: seq<Sent>, between: seq<Sent>, now: seq<Sent>)
    requires Stage(a, rs, answers, 0, size, mid, false, was, between)
    requires Stage(a, rs, answers, mid, more, done, refused, between, now)
    ensures Stage(a, rs, answers, 0, size + more, done, refused, was, now)
  {
    var end := if refused then done + 1 else done;
    assert OnWire(a, rs[0..mid]) + OnWire(a, rs[mid..end]) == OnWire(a, rs[0..end]);
  }

  lemma OneMore(a: AccountId, rs: seq<Request>, start: nat, k: nat)
    requires start <= k < |rs|
    ensures OnWire(a, rs[start..k]) + [Sent(a, rs[k])] == OnWire(a, rs[start..k + 1])
  {
  }
}
