/** Standing market data subscriptions, and the server session they describe. */
module Subscriptions {
  import opened Collections

  type SymbolId = int

  /** Periods, listed as their names sort. */
  datatype Period = D1 | H1 | H12 | H4 | M1 | M10 | M15 | M2 | M3 | M30 | M4 | M5 | MN1 | W1

  function Rank(p: Period): nat {
    match p
    case D1 => 0 case H1 => 1 case H12 => 2 case H4 => 3 case M1 => 4 case M10 => 5 case M15 => 6
    case M2 => 7 case M3 => 8 case M30 => 9 case M4 => 10 case M5 => 11 case MN1 => 12 case W1 => 13
  }

  datatype Trendbar = Trendbar(symbol: SymbolId, period: Period)

  /** What one account has subscribed to: the client's record, or the server's session. */
  datatype Subs = Subs(spots: set<SymbolId>, trendbars: set<Trendbar>, depth: set<SymbolId>)

  const NONE := Subs({}, {}, {})

  datatype Request =
    | SubscribeSpots(symbols: seq<SymbolId>)
    | UnsubscribeSpots(symbols: seq<SymbolId>)
    | SubscribeTrendbars(bar: Trendbar)
    | UnsubscribeTrendbars(bar: Trendbar)
    | SubscribeDepth(symbols: seq<SymbolId>)
    | UnsubscribeDepth(symbols: seq<SymbolId>)

  /** What an accepted request makes of a set of subscriptions. */
  function Effect(s: Subs, r: Request): Subs {
    match r
    case SubscribeSpots(ids) => s.(spots := s.spots + Elements(ids))
    case UnsubscribeSpots(ids) => s.(spots := s.spots - Elements(ids))
    case SubscribeTrendbars(bar) => s.(trendbars := s.trendbars + {bar})
    case UnsubscribeTrendbars(bar) => s.(trendbars := s.trendbars - {bar})
    case SubscribeDepth(ids) => s.(depth := s.depth + Elements(ids))
    case UnsubscribeDepth(ids) => s.(depth := s.depth - Elements(ids))
  }

  /** One thing an account may be subscribed to. */
  datatype Item = Spot(symbol: SymbolId) | Bar(bar: Trendbar) | Book(symbol: SymbolId)

  predicate Has(s: Subs, i: Item) {
    match i
    case Spot(x) => x in s.spots
    case Bar(b) => b in s.trendbars
    case Book(x) => x in s.depth
  }

  predicate Adds(r: Request, i: Item) {
    match r
    case SubscribeSpots(ids) => i.Spot? && i.symbol in ids
    case SubscribeTrendbars(bar) => i == Bar(bar)
    case SubscribeDepth(ids) => i.Book? && i.symbol in ids
    case _ => false
  }

  predicate Removes(r: Request, i: Item) {
    match r
    case UnsubscribeSpots(ids) => i.Spot? && i.symbol in ids
    case UnsubscribeTrendbars(bar) => i == Bar(bar)
    case UnsubscribeDepth(ids) => i.Book? && i.symbol in ids
    case _ => false
  }

  /** A request adds what it names, or takes it away, and touches nothing else. */
  lemma RequestsChange(s: Subs, r: Request, i: Item)
    ensures Has(Effect(s, r), i) <==> Adds(r, i) || (Has(s, i) && !Removes(r, i))
  {
  }

  predicate Within(a: Subs, b: Subs) {
    a.spots <= b.spots && a.trendbars <= b.trendbars && a.depth <= b.depth
  }

  // ---------------------------------------------------------------------
  // The order of a replay
  // ---------------------------------------------------------------------

  predicate Before(x: Trendbar, y: Trendbar) {
    x.symbol < y.symbol || (x.symbol == y.symbol && Rank(x.period) < Rank(y.period))
  }

  ghost predicate SortedIds(ids: seq<SymbolId>, s: set<SymbolId>) {
    Elements(ids) == s && forall i, j | 0 <= i < j < |ids| :: ids[i] < ids[j]
  }

  ghost predicate SortedBars(bars: seq<Trendbar>, s: set<Trendbar>) {
    Elements(bars) == s && forall i, j | 0 <= i < j < |bars| :: Before(bars[i], bars[j])
  }

  lemma Some<T>(s: set<T>) returns (x: T)
    requires s != {}
    ensures x in s
  {
    x :| x in s;
  }

  lemma {:induction false} LeastExists(s: set<SymbolId>)
    requires s != {}
    ensures exists m :: m in s && forall x | x in s :: m <= x
    decreases |s|
  {
    var x := Some(s);
    var others := s - {x};
    if others != {} {
      LeastExists(others);
      var m :| m in others && forall y | y in others :: m <= y;
      var least := if m < x then m else x;
      assert forall y | y in s :: y == x || y in others;
      assert least in s && forall y | y in s :: least <= y;
    } else {
      assert forall y | y in s :: y == x || y in others;
    }
  }

  lemma RankInjective(p: Period, q: Period)
    ensures Rank(p) == Rank(q) <==> p == q
  {
  }

  lemma {:induction false} LeastBarExists(s: set<Trendbar>)
    requires s != {}
    ensures exists m :: m in s && forall x | x in s :: x == m || Before(m, x)
    decreases |s|
  {
    var x :| x in s;
    var others := s - {x};
    if others != {} {
      LeastBarExists(others);
      var m :| m in others && forall y | y in others :: y == m || Before(m, y);
      RankInjective(m.period, x.period);
      var least := if Before(m, x) then m else x;
      assert forall y | y in s :: y == x || y in others;
      assert least in s && forall y | y in s :: y == least || Before(least, y);
    } else {
      assert forall y | y in s :: y == x || y in others;
    }
  }

  /** The listing a replay makes of a set of symbols. */
  function Listed(s: set<SymbolId>): seq<SymbolId>
    decreases |s|
  {
    if s == {} then []
    else
      LeastExists(s);
      var m :| m in s && forall x | x in s :: m <= x;
      [m] + Listed(s - {m})
  }

  lemma {:induction false} ListedSorted(s: set<SymbolId>)
    ensures SortedIds(Listed(s), s)
    decreases |s|
  {
    if s != {} {
      LeastExists(s);
      var m :| m in s && (forall x | x in s :: m <= x) && Listed(s) == [m] + Listed(s - {m});
      ListedSorted(s - {m});
      ListedFirst(m, Listed(s - {m}), s);
    }
  }

  lemma ListedFirst(m: SymbolId, rest: seq<SymbolId>, s: set<SymbolId>)
    requires m in s && forall x | x in s :: m <= x
    requires SortedIds(rest, s - {m})
    ensures SortedIds([m] + rest, s)
  {
    var ids := [m] + rest;
    forall x ensures x in Elements(ids) <==> x in s {
      assert x in ids <==> x == m || x in rest;
      assert x in rest <==> x in Elements(rest);
    }
    forall i, j | 0 <= i < j < |ids| ensures ids[i] < ids[j] {
      assert ids[j] == rest[j - 1] && rest[j - 1] in Elements(rest);
    }
  }

  /** And of a set of trendbars. */
  function ListedBars(s: set<Trendbar>): seq<Trendbar>
    decreases |s|
  {
    if s == {} then []
    else
      LeastBarExists(s);
      var m :| m in s && forall x | x in s :: x == m || Before(m, x);
      [m] + ListedBars(s - {m})
  }

  lemma {:induction false} ListedBarsSorted(s: set<Trendbar>)
    ensures SortedBars(ListedBars(s), s)
    decreases |s|
  {
    if s != {} {
      LeastBarExists(s);
      var m :| m in s && (forall x | x in s :: x == m || Before(m, x)) && ListedBars(s) == [m] + ListedBars(s - {m});
      ListedBarsSorted(s - {m});
      ListedBarsFirst(m, ListedBars(s - {m}), s);
    }
  }

  lemma ListedBarsFirst(m: Trendbar, rest: seq<Trendbar>, s: set<Trendbar>)
    requires m in s && forall x | x in s :: x == m || Before(m, x)
    requires SortedBars(rest, s - {m})
    ensures SortedBars([m] + rest, s)
  {
    var bars := [m] + rest;
    forall x ensures x in Elements(bars) <==> x in s {
      assert x in bars <==> x == m || x in rest;
      assert x in rest <==> x in Elements(rest);
    }
    forall i, j | 0 <= i < j < |bars| ensures Before(bars[i], bars[j]) {
      assert bars[j] == rest[j - 1] && rest[j - 1] in Elements(rest);
    }
  }

  function BarRequests(bars: seq<Trendbar>): seq<Request> {
    seq(|bars|, i requires 0 <= i < |bars| => SubscribeTrendbars(bars[i]))
  }

  /** Spots first, then the trendbars that need them, depth last. */
  function Replay(spots: seq<SymbolId>, bars: seq<Trendbar>, depth: seq<SymbolId>): seq<Request> {
    (if spots == [] then [] else [SubscribeSpots(spots)])
    + BarRequests(bars)
    + (if depth == [] then [] else [SubscribeDepth(depth)])
  }

  /** Everything a replay of this record sends. */
  function WholeReplay(record: Subs): seq<Request> {
    Replay(Listed(record.spots), ListedBars(record.trendbars), Listed(record.depth))
  }

  /** The three listings of a record. */
  ghost predicate Lists(record: Subs, spots: seq<SymbolId>, bars: seq<Trendbar>, depth: seq<SymbolId>) {
    SortedIds(spots, record.spots) && SortedBars(bars, record.trendbars) && SortedIds(depth, record.depth)
  }

  lemma WholeReplayLists(record: Subs)
    ensures Lists(record, Listed(record.spots), ListedBars(record.trendbars), Listed(record.depth))
  {
    ListedSorted(record.spots);
    ListedBarsSorted(record.trendbars);
    ListedSorted(record.depth);
  }

  /** Which request of a replay of these listings is which. */
  predicate InPlace(rs: seq<Request>, spots: seq<SymbolId>, bars: seq<Trendbar>, depth: seq<SymbolId>) {
    var first := if spots == [] then 0 else 1;
    && |rs| == first + |bars| + (if depth == [] then 0 else 1)
    && forall i | 0 <= i < |rs| ::
         rs[i] == (if i < first then Request.SubscribeSpots(spots)
                   else if i < first + |bars| then Request.SubscribeTrendbars(bars[i - first])
                   else Request.SubscribeDepth(depth))
  }

  lemma ReplayIs(record: Subs, spots: seq<SymbolId>, bars: seq<Trendbar>, depth: seq<SymbolId>)
    requires Lists(record, spots, bars, depth)
    ensures spots == [] <==> record.spots == {}
    ensures depth == [] <==> record.depth == {}
    ensures InPlace(Replay(spots, bars, depth), spots, bars, depth)
  {
    if spots != [] { assert spots[0] in Elements(spots); }
    if depth != [] { assert depth[0] in Elements(depth); }
  }

  function Turn(r: Request): nat {
    match r
    case SubscribeSpots(_) => 0
    case SubscribeTrendbars(_) => 1
    case _ => 2
  }

  predicate Precedes(r: Request, q: Request) {
    Turn(r) < Turn(q) || (r.SubscribeTrendbars? && q.SubscribeTrendbars? && Before(r.bar, q.bar))
  }

  /** A request that a replay of this record may make. */
  ghost predicate Belongs(record: Subs, r: Request) {
    match r
    case SubscribeSpots(ids) => Distinct(ids) && Elements(ids) == record.spots != {}
    case SubscribeTrendbars(bar) => bar in record.trendbars
    case SubscribeDepth(ids) => Distinct(ids) && Elements(ids) == record.depth != {}
    case _ => false
  }

  /** One request lists each spot symbol once, then comes each trendbar once, and
      one request at the end lists each depth symbol once. */
  ghost predicate OnceInOrder(record: Subs, rs: seq<Request>) {
    && (forall i, j | 0 <= i < j < |rs| :: Precedes(rs[i], rs[j]))
    && (forall i | 0 <= i < |rs| :: Belongs(record, rs[i]))
    && (record.spots != {} ==> rs != [] && rs[0].SubscribeSpots?)
    && (forall bar | bar in record.trendbars :: Request.SubscribeTrendbars(bar) in rs)
    && (record.depth != {} ==> rs != [] && rs[|rs| - 1].SubscribeDepth?)
  }

  /** Nothing standing is left out of a replay and nothing is asked for twice. */
  lemma EachItemOnceInOrder(record: Subs)
    ensures OnceInOrder(record, WholeReplay(record))
  {
    WholeReplayLists(record);
    ListingsOnceInOrder(record, Listed(record.spots), ListedBars(record.trendbars), Listed(record.depth));
  }

  lemma ListingsOnceInOrder(record: Subs, spots: seq<SymbolId>, bars: seq<Trendbar>, depth: seq<SymbolId>)
    requires Lists(record, spots, bars, depth)
    ensures OnceInOrder(record, Replay(spots, bars, depth))
  {
    ReplayIs(record, spots, bars, depth);
    var rs := Replay(spots, bars, depth);
    InPlaceOrdered(rs, spots, bars, depth, record);
    InPlaceComplete(rs, spots, bars, depth, record);
  }

  lemma InPlaceOrdered(rs: seq<Request>, spots: seq<SymbolId>, bars: seq<Trendbar>, depth: seq<SymbolId>, record: Subs)
    requires InPlace(rs, spots, bars, depth) && Lists(record, spots, bars, depth)
    ensures forall i, j | 0 <= i < j < |rs| :: Precedes(rs[i], rs[j])
  {
    var first := if spots == [] then 0 else 1;
    forall i, j | 0 <= i < j < |rs| ensures Precedes(rs[i], rs[j]) {
      if first <= i && j < first + |bars| { assert Before(bars[i - first], bars[j - first]); }
    }
  }

  lemma InPlaceComplete(rs: seq<Request>, spots: seq<SymbolId>, bars: seq<Trendbar>, depth: seq<SymbolId>, record: Subs)
    requires InPlace(rs, spots, bars, depth) && Lists(record, spots, bars, depth)
    requires (spots == [] <==> record.spots == {}) && (depth == [] <==> record.depth == {})
    ensures forall i | 0 <= i < |rs| :: Belongs(record, rs[i])
    ensures record.spots != {} ==> rs != [] && rs[0].SubscribeSpots?
    ensures record.depth != {} ==> rs != [] && rs[|rs| - 1].SubscribeDepth?
    ensures forall bar | bar in record.trendbars :: Request.SubscribeTrendbars(bar) in rs
  {
    var first := if spots == [] then 0 else 1;
    assert forall i | 0 <= i < |bars| :: bars[i] in Elements(bars);
    forall bar | bar in record.trendbars ensures Request.SubscribeTrendbars(bar) in rs {
      assert bar in Elements(bars);
      var i :| 0 <= i < |bars| && bars[i] == bar;
      var k := first + i;
      assert rs[k] == Request.SubscribeTrendbars(bars[k - first]);
    }
  }

  // ---------------------------------------------------------------------
  // A server that rejects duplicates and trendbars without spots, and nothing else
  // ---------------------------------------------------------------------

  predicate Accepts(server: Subs, r: Request) {
    match r
    case SubscribeSpots(ids) => Distinct(ids) && forall i | i in ids :: i !in server.spots
    case SubscribeTrendbars(bar) => bar !in server.trendbars && bar.symbol in server.spots
    case SubscribeDepth(ids) => Distinct(ids) && forall i | i in ids :: i !in server.depth
    case _ => true
  }

  ghost predicate AcceptsAll(server: Subs, rs: seq<Request>)
    decreases |rs|
  {
    rs == [] || (Accepts(server, rs[0]) && AcceptsAll(Effect(server, rs[0]), rs[1..]))
  }

  ghost function EffectAll(server: Subs, rs: seq<Request>): Subs
    decreases |rs|
  {
    if rs == [] then server else EffectAll(Effect(server, rs[0]), rs[1..])
  }

  lemma {:induction false} Split(server: Subs, a: seq<Request>, b: seq<Request>)
    ensures AcceptsAll(server, a + b) <==> AcceptsAll(server, a) && AcceptsAll(EffectAll(server, a), b)
    ensures EffectAll(server, a + b) == EffectAll(EffectAll(server, a), b)
    decreases |a|
  {
    if a == [] {
      assert a + b == b;
    } else {
      assert (a + b)[1..] == a[1..] + b;
      Split(Effect(server, a[0]), a[1..], b);
    }
  }

  lemma {:induction false} ReplayBars(server: Subs, bars: seq<Trendbar>)
    requires forall i, j | 0 <= i < j < |bars| :: Before(bars[i], bars[j])
    requires forall b | b in bars :: b !in server.trendbars
    ensures AcceptsAll(server, BarRequests(bars)) <==> forall b | b in bars :: b.symbol in server.spots
    ensures EffectAll(server, BarRequests(bars)) == server.(trendbars := server.trendbars + Elements(bars))
    decreases |bars|
  {
    if bars == [] {
      assert server.trendbars + Elements(bars) == server.trendbars;
    } else {
      var next := Effect(server, SubscribeTrendbars(bars[0]));
      assert BarRequests(bars)[1..] == BarRequests(bars[1..]);
      assert bars == [bars[0]] + bars[1..];
      forall b | b in bars[1..] ensures b !in next.trendbars {
        var i :| 0 <= i < |bars[1..]| && bars[1..][i] == b;
        assert Before(bars[0], bars[i + 1]);
      }
      ReplayBars(next, bars[1..]);
      assert next.trendbars + Elements(bars[1..]) == server.trendbars + Elements(bars);
    }
  }

  /** On a fresh session, replaying a record is accepted throughout exactly when
      every trendbar in it has its symbol among the spots; and whatever is
      accepted in full leaves the session as the record says. */
  lemma ReplayIsAcceptedIff(record: Subs, spots: seq<SymbolId>, bars: seq<Trendbar>, depth: seq<SymbolId>)
    requires Lists(record, spots, bars, depth)
    ensures AcceptsAll(NONE, Replay(spots, bars, depth))
       <==> forall b | b in record.trendbars :: b.symbol in record.spots
    ensures EffectAll(NONE, Replay(spots, bars, depth)) == record
  {
    var first := if spots == [] then [] else [SubscribeSpots(spots)];
    var last := if depth == [] then [] else [SubscribeDepth(depth)];
    Split(NONE, first + BarRequests(bars), last);
    Split(NONE, first, BarRequests(bars));
    var live := EffectAll(NONE, first);
    assert first != [] ==> first[1..] == [];
    assert live == Subs(record.spots, {}, {});
    ReplayBars(live, bars);
    var complete := EffectAll(live, BarRequests(bars));
    assert complete == Subs(record.spots, record.trendbars, {});
    assert last != [] ==> last[1..] == [];
    assert EffectAll(complete, last) == record;
    assert AcceptsAll(complete, last);
    assert AcceptsAll(NONE, first);
    assert (forall b | b in bars :: b.symbol in live.spots) <==> forall b | b in record.trendbars :: b.symbol in record.spots;
  }

  /** An unsubscription of spots can leave a record whose replay a strict server
      refuses half-way: the trendbar stays, its spots are gone, and depth is
      never reached. */
  lemma OrphanedTrendbarBlocksReplay(symbol: SymbolId, period: Period, other: SymbolId)
    ensures var bar := Trendbar(symbol, period);
            var record := EffectAll(NONE, [SubscribeSpots([symbol]), SubscribeTrendbars(bar),
                                           SubscribeDepth([other]), UnsubscribeSpots([symbol])]);
            && AcceptsAll(NONE, [SubscribeSpots([symbol]), SubscribeTrendbars(bar),
                                 SubscribeDepth([other]), UnsubscribeSpots([symbol])])
            && record == Subs({}, {bar}, {other})
            && !Accepts(NONE, Replay([], [bar], [other])[0])
  {
    var bar := Trendbar(symbol, period);
    var r1, r2, r3, r4 := SubscribeSpots([symbol]), SubscribeTrendbars(bar), SubscribeDepth([other]), UnsubscribeSpots([symbol]);
    var s1 := Effect(NONE, r1);
    var s2 := Effect(s1, r2);
    var s3 := Effect(s2, r3);
    var s4 := Effect(s3, r4);
    assert s4 == Subs({}, {bar}, {other});
    var rs := [r1, r2, r3, r4];
    assert rs[1..] == [r2, r3, r4] && rs[1..][1..] == [r3, r4];
    assert rs[1..][1..][1..] == [r4] && rs[1..][1..][1..][1..] == [];
    assert AcceptsAll(s3, [r4]) && EffectAll(s3, [r4]) == s4;
    assert AcceptsAll(s2, [r3, r4]) && EffectAll(s2, [r3, r4]) == s4;
    assert AcceptsAll(s1, [r2, r3, r4]) && EffectAll(s1, [r2, r3, r4]) == s4;
    assert BarRequests([bar]) == [SubscribeTrendbars(bar)];
  }
}
