/** The auth manager: a session established, probed or given up, with what that
    means for the store, the standing subscriptions and what is announced. */
module Manager {
  import opened Sessions
  import opened SessionStoreObject
  import opened MarketData
  import opened Replies
  import S = Subscriptions

  datatype Trigger = Initial | Reconnect | AccountRecovery | TokenRefresh

  /** In the order in which they happen. */
  datatype Act =
    | AuthRequested(credentials: Credentials)
    | MarkedAuthorized(account: AccountId)
    | Replayed(account: AccountId, accepted: nat)
    | Ready(account: AccountId, trigger: Trigger)

  /** What was replayed, when requests were accepted up to here. */
  function Reapplied(rs: seq<S.Request>, accepted: nat): seq<S.Request> {
    if accepted < |rs| then rs[..accepted + 1] else rs
  }

  class AuthManager {
    const store: SessionStore
    const restorer: MarketDataAPI
    ghost var acts: seq<Act>

    constructor (store: SessionStore, restorer: MarketDataAPI)
      ensures this.store == store && this.restorer == restorer && acts == []
    {
      this.store, this.restorer := store, restorer;
      acts := [];
    }

    /** The account is announced as ready last, after its subscriptions have been
        replayed, and neither happens when a token is renewed in place. An expired
        token is not sent, and any failure leaves the store as it was. */
    method Establish(c: Credentials, trigger: Trigger, expired: bool, reply: Reply, answers: nat -> bool)
      returns (result: Established, accepted: nat)
      requires store.Valid()
      modifies this, store`order, store`accounts, restorer
      ensures store.Valid() && result == Verdict(expired, reply)
      ensures result == Success <==> !expired && reply == Answered
      ensures result == TokenExpired <==> expired || reply == ApiError(TokenFailure)
      ensures result == AccountRefused(true) <==> !expired && reply == ApiError(AlreadyLoggedIn)
      ensures result == AccountRefused(false) <==> !expired && reply == ApiError(OtherCode)
      ensures result == Raised <==> !expired && reply == NoAnswer
      ensures store.Model() == if result.Success? then Apply(old(store.Model()), Op.Authorize(c)) else old(store.Model())
      ensures restorer.standing == old(restorer.standing)
      ensures result.Success? && !trigger.TokenRefresh? ==>
                var rs := S.WholeReplay(Of(restorer.standing, c.accountId));
                && StoppedAt(rs, answers, accepted)
                && restorer.sent == old(restorer.sent) + OnWire(c.accountId, Reapplied(rs, accepted))
                && acts == old(acts) + [AuthRequested(c), MarkedAuthorized(c.accountId),
                                        Replayed(c.accountId, accepted), Ready(c.accountId, trigger)]
      ensures !result.Success? || trigger.TokenRefresh? ==> restorer.sent == old(restorer.sent)
      ensures result.Success? && trigger.TokenRefresh? ==>
                acts == old(acts) + [AuthRequested(c), MarkedAuthorized(c.accountId)]
      ensures !result.Success? ==> acts == old(acts) + if expired then [] else [AuthRequested(c)]
    {
      accepted := 0;
      if expired { return TokenExpired, 0; }
      acts := acts + [AuthRequested(c)];
      match reply
      case ApiError(code) =>
        if code == TokenFailure { result := TokenExpired; } else { result := AccountRefused(code == AlreadyLoggedIn); }
      case NoAnswer => result := Raised;
      case Answered =>
        store.Authorize(c);
        acts := acts + [MarkedAuthorized(c.accountId)];
        result := Success;
        if trigger != TokenRefresh {
          accepted := restorer.Restore(c.accountId, answers);
          acts := acts + [Replayed(c.accountId, accepted)];
          acts := acts + [Ready(c.accountId, trigger)];
        }
    }

    /** A refusal says that the session is gone, unless it is about the token. The
        answer is the one that the check of a reported disconnect goes by. */
    method ProbeSession(reply: Reply) returns (probe: Probe)
      ensures probe == ProbeOf(reply)
      ensures probe == Dead <==> reply.ApiError? && reply.code != TokenFailure
    {
      match reply
      case ApiError(code) => if code == TokenFailure { return TokenTrouble; } return Dead;
      case NoAnswer => return Unanswered;
      case Answered => return Live;
    }

    /** An account given up takes its subscriptions with it, so that nothing is
        replayed for it if it is established again; one not held changes nothing. */
    method RemoveAccount(a: AccountId) returns (held: bool)
      requires store.Valid()
      modifies store`order, store`accounts, restorer
      ensures store.Valid() && store.Model() == Apply(old(store.Model()), Op.Remove(a))
      ensures held <==> a in old(store.accounts)
      ensures restorer.standing == if held then old(restorer.standing) - {a} else old(restorer.standing)
      ensures held ==> S.WholeReplay(Of(restorer.standing, a)) == []
      ensures restorer.sent == old(restorer.sent)
    {
      held := store.Remove(a);
      if held { restorer.Forget(a); }
    }
  }
}
