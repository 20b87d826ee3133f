/** Inputs, windows, sums and interval splitting of the daily accounts. Times are integer milliseconds. */
module AccountingMath {
  import opened Options
  import opened PerplHistory

  const DAY := 86_400_000

  /** What the chain and the configured rate report: never negative. */
  type Amount = r: real | r >= 0.0 witness 0.0

  datatype Snapshot = Snapshot(
    at: int, supplyZero: bool, pricePerShareUsd: Option<real>, shortBookFresh: bool,
    stakedMon: Amount, stakingApyBps: Option<Amount>, monPriceUsd: real, monHeld: real, shortEquityBookedUsd: real)

  datatype Observation = Observation(scope: int, at: int, openFundingUsd: Option<real>)

  /** `growth` is the compounded rate over a span, left uninterpreted. */
  datatype Inputs = Inputs(
    from: int, to: int, snapshots: seq<Snapshot>, observations: seq<Observation>, events: seq<Event>,
    marketId: Option<int>, fundingThrough: Option<int>, fillsThrough: Option<int>, positionsThrough: Option<int>,
    historyFrom: Option<int>, maxGapMs: int, growth: (Amount, int) -> real)

  function Min(a: int, b: int): int { if a < b then a else b }
  function Max(a: int, b: int): int { if a < b then b else a }

  function DayOf(ms: int): int { ms / DAY }

  function Dollars(raw: int): real { raw as real / 1_000_000.0 }

  function Or<T>(a: Option<T>, b: T): T { if a.Some? then a.value else b }

  // ---- Sorting by time, as the source does before pairing neighbours ----

  function Insert<T>(x: T, xs: seq<T>, at: T -> int): seq<T> {
    if xs == [] || at(x) < at(xs[0]) then [x] + xs else [xs[0]] + Insert(x, xs[1..], at)
  }

  function Sort<T>(xs: seq<T>, at: T -> int): seq<T> {
    if xs == [] then [] else Insert(xs[|xs| - 1], Sort(xs[..|xs| - 1], at), at)
  }

  predicate Sorted<T>(xs: seq<T>, at: T -> int) {
    forall i, j :: 0 <= i < j < |xs| ==> at(xs[i]) <= at(xs[j])
  }

  lemma {:induction false} InsertKeeps<T>(x: T, xs: seq<T>, at: T -> int)
    ensures multiset(Insert(x, xs, at)) == multiset(xs) + multiset{x}
  {
    if xs != [] && at(x) >= at(xs[0]) {
      InsertKeeps(x, xs[1..], at);
      assert xs == [xs[0]] + xs[1..];
    }
  }

  lemma {:induction false} InsertMember<T>(x: T, xs: seq<T>, at: T -> int, y: T)
    requires y in Insert(x, xs, at)
    ensures y == x || y in xs
  {
    if xs != [] && at(x) >= at(xs[0]) && y != xs[0] {
      InsertMember(x, xs[1..], at, y);
    }
  }

  lemma ConsSorted<T>(x: T, xs: seq<T>, at: T -> int)
    requires Sorted(xs, at) && forall y :: y in xs ==> at(x) <= at(y)
    ensures Sorted([x] + xs, at)
  {
  }

  lemma {:induction false} InsertSorts<T>(x: T, xs: seq<T>, at: T -> int)
    requires Sorted(xs, at)
    ensures Sorted(Insert(x, xs, at), at)
  {
    if xs == [] || at(x) < at(xs[0]) {
      ConsSorted(x, xs, at);
    } else {
      InsertSorts(x, xs[1..], at);
      var tail := Insert(x, xs[1..], at);
      forall y | y in tail ensures at(xs[0]) <= at(y) {
        InsertMember(x, xs[1..], at, y);
      }
      ConsSorted(xs[0], tail, at);
    }
  }

  lemma {:induction false} SortSorts<T>(xs: seq<T>, at: T -> int)
    ensures Sorted(Sort(xs, at), at)
    ensures multiset(Sort(xs, at)) == multiset(xs)
    ensures |Sort(xs, at)| == |xs|
  {
    if xs != [] {
      var m := |xs| - 1;
      SortSorts(xs[..m], at);
      InsertSorts(xs[m], Sort(xs[..m], at), at);
      InsertKeeps(xs[m], Sort(xs[..m], at), at);
      assert xs == xs[..m] + [xs[m]];
    }
    assert |multiset(Sort(xs, at))| == |multiset(xs)|;
  }

  /** What happened at t, in the order it was given. */
  ghost function TiesAt<T>(xs: seq<T>, at: T -> int, t: int): seq<T> {
    if xs == [] then [] else (if at(xs[0]) == t then [xs[0]] else []) + TiesAt(xs[1..], at, t)
  }

  lemma {:induction false} TiesOfSnoc<T>(xs: seq<T>, x: T, at: T -> int, t: int)
    ensures TiesAt(xs + [x], at, t) == TiesAt(xs, at, t) + if at(x) == t then [x] else []
  {
    if xs == [] {
      assert [] + [x] == [x];
    } else {
      assert (xs + [x])[1..] == xs[1..] + [x];
      TiesOfSnoc(xs[1..], x, at, t);
    }
  }

  lemma {:induction false} NoTies<T>(xs: seq<T>, at: T -> int, t: int)
    requires forall y :: y in xs ==> at(y) != t
    ensures TiesAt(xs, at, t) == []
  {
    if xs != [] { NoTies(xs[1..], at, t); }
  }

  lemma {:induction false} InsertGoesLast<T>(x: T, xs: seq<T>, at: T -> int, t: int)
    requires Sorted(xs, at)
    ensures TiesAt(Insert(x, xs, at), at, t) == TiesAt(xs, at, t) + if at(x) == t then [x] else []
  {
    if xs == [] || at(x) < at(xs[0]) {
      assert ([x] + xs)[1..] == xs;
      if at(x) == t { NoTies(xs, at, t); }
    } else {
      InsertGoesLast(x, xs[1..], at, t);
      assert ([xs[0]] + Insert(x, xs[1..], at))[1..] == Insert(x, xs[1..], at);
    }
  }

  /** Rows of one instant keep the order they came in. */
  lemma {:induction false} SortIsStable<T>(xs: seq<T>, at: T -> int, t: int)
    ensures TiesAt(Sort(xs, at), at, t) == TiesAt(xs, at, t)
  {
    if xs != [] {
      var m := |xs| - 1;
      assert xs == xs[..m] + [xs[m]];
      SortSorts(xs[..m], at);
      SortIsStable(xs[..m], at, t);
      InsertGoesLast(xs[m], Sort(xs[..m], at), at, t);
      TiesOfSnoc(xs[..m], xs[m], at, t);
    }
  }

  // ---- Splitting an interval at UTC midnights ----

  /** How much of [start, end) falls on a day: the meaning of a split, with no loop in it. */
  function Overlap(start: int, end: int, day: int): (ms: int)
    ensures 0 <= ms <= DAY
  {
    Max(0, Min(end, (day + 1) * DAY) - Max(start, day * DAY))
  }

  datatype Visit = Visit(date: int, ms: int)

  /** The visits `splitInterval` makes: every day the interval touches, once, for exactly its overlap. */
  method SplitInterval(start: int, end: int) returns (visits: seq<Visit>)
    ensures forall k :: 0 <= k < |visits| ==> visits[k].date == DayOf(start) + k
    ensures forall k :: 0 <= k < |visits| ==> visits[k].ms == Overlap(start, end, visits[k].date) && visits[k].ms > 0
    ensures forall day :: Overlap(start, end, day) > 0 ==> DayOf(start) <= day < DayOf(start) + |visits|
  {
    visits := [];
    var cursor := start;
    while cursor < end
      invariant visits == [] ==> cursor == start
      invariant visits != [] ==> start < cursor <= end && (cursor == end || cursor == (DayOf(start) + |visits|) * DAY)
      invariant forall k :: 0 <= k < |visits| ==> visits[k].date == DayOf(start) + k
      invariant forall k :: 0 <= k < |visits| ==> visits[k].ms == Overlap(start, end, visits[k].date) && visits[k].ms > 0
      invariant cursor <= (DayOf(start) + |visits|) * DAY || visits == []
      decreases end - cursor
    {
      var next := Min(end, (DayOf(cursor) + 1) * DAY);
      visits := visits + [Visit(DayOf(cursor), next - cursor)];
      cursor := next;
    }
  }

  // ---- Sums of exact raw amounts ----

  datatype Field = Funding | Fees | Pnl

  /** Between is open on the left: an event at the opening observation belongs to the interval before. */
  datatype Window = Between(lo: int, hi: int) | OnDay(day: int, from: int, to: int)

  predicate In(t: int, w: Window) {
    match w
    case Between(lo, hi) => lo < t <= hi
    case OnDay(day, from, to) => DayOf(t) == day && from <= t <= to
  }

  function Raw(e: Event, f: Field): int {
    match f
    case Funding => Or(e.fundingRaw, 0)
    case Fees => Or(e.tradingFeeRaw, 0)
    case Pnl => Or(e.realisedTradingPnlRaw, 0)
  }

  function Share(e: Event, f: Field, w: Window): int { if In(e.at, w) then Raw(e, f) else 0 }

  function Total(events: seq<Event>, f: Field, w: Window): int {
    if events == [] then 0 else Total(events[..|events| - 1], f, w) + Share(events[|events| - 1], f, w)
  }

  lemma {:induction false} TotalConcat(a: seq<Event>, b: seq<Event>, f: Field, w: Window)
    ensures Total(a + b, f, w) == Total(a, f, w) + Total(b, f, w)
  {
    if b == [] {
      assert a + b == a;
    } else {
      var m := |b| - 1;
      assert (a + b)[..|a + b| - 1] == a + b[..m];
      TotalConcat(a, b[..m], f, w);
    }
  }

  lemma TotalRemove(events: seq<Event>, i: nat, f: Field, w: Window)
    requires i < |events|
    ensures Total(events, f, w) == Total(events[..i] + events[i + 1..], f, w) + Share(events[i], f, w)
  {
    assert events == events[..i] + [events[i]] + events[i + 1..];
    TotalConcat(events[..i] + [events[i]], events[i + 1..], f, w);
    TotalConcat(events[..i], [events[i]], f, w);
    TotalConcat(events[..i], events[i + 1..], f, w);
    assert [events[i]][..0] == [];
  }

  lemma Extract<T>(a: seq<T>, b: seq<T>) returns (i: nat)
    requires a != [] && multiset(a) == multiset(b)
    ensures i < |b| && b[i] == a[|a| - 1]
    ensures multiset(a[..|a| - 1]) == multiset(b[..i] + b[i + 1..])
  {
    var last := a[|a| - 1];
    assert a == a[..|a| - 1] + [last];
    assert last in multiset(b);
    i :| 0 <= i < |b| && b[i] == last;
    assert b == b[..i] + [b[i]] + b[i + 1..];
    assert multiset(a[..|a| - 1]) == multiset(a) - multiset{last};
    assert multiset(b[..i] + b[i + 1..]) == multiset(b) - multiset{last};
  }

  /** Delivery order never matters to a sum. */
  lemma {:induction false} TotalOrderFree(a: seq<Event>, b: seq<Event>, f: Field, w: Window)
    requires multiset(a) == multiset(b)
    ensures Total(a, f, w) == Total(b, f, w)
    decreases |a|
  {
    if a == [] {
      assert |multiset(a)| == |multiset(b)|;
    } else {
      var i := Extract(a, b);
      TotalOrderFree(a[..|a| - 1], b[..i] + b[i + 1..], f, w);
      TotalRemove(b, i, f, w);
    }
  }

  /** Adjacent windows split a sum without counting anything twice or losing anything. */
  lemma {:induction false} TotalSplits(events: seq<Event>, f: Field, a: int, b: int, c: int)
    requires a <= b <= c
    ensures Total(events, f, Between(a, c)) == Total(events, f, Between(a, b)) + Total(events, f, Between(b, c))
  {
    if events != [] {
      TotalSplits(events[..|events| - 1], f, a, b, c);
    }
  }

  // ---- Reconciling the two streams that report funding ----

  predicate ReportsFunding(e: Event, market: int) {
    e.marketId == Some(market) && e.fundingRaw.Some?
  }

  /** A position row that really moved funding, under the log and position an account row names. */
  predicate Settles(p: Event, e: Event, market: int) {
    p.stream.PositionHistory? && ReportsFunding(p, market) && p.fundingRaw.value != 0
    && p.logKey == e.logKey && p.positionId == e.positionId
  }

  predicate Counted(all: seq<Event>, e: Event, market: int) {
    ReportsFunding(e, market)
    && (e.stream.PositionHistory? || (e.stream.AccountHistory? && !exists p :: p in all && Settles(p, e, market)))
  }

  function CountedIn(all: seq<Event>, events: seq<Event>, market: int): (r: seq<Event>)
    ensures forall e :: e in r <==> e in events && Counted(all, e, market)
  {
    if events == [] then []
    else
      var m := |events| - 1;
      CountedIn(all, events[..m], market) + (if Counted(all, events[m], market) then [events[m]] else [])
  }

  function ReconciledFunding(events: seq<Event>, market: int): seq<Event> {
    CountedIn(events, events, market)
  }

  /** The share of an event in a reconciled sum, read off the whole list rather than the filtered one. */
  function CountedTotal(all: seq<Event>, events: seq<Event>, market: int, w: Window): int {
    if events == [] then 0
    else
      var m := |events| - 1;
      CountedTotal(all, events[..m], market, w) + (if Counted(all, events[m], market) then Share(events[m], Funding, w) else 0)
  }

  lemma {:induction false} CountedTotalIsTotal(all: seq<Event>, events: seq<Event>, market: int, w: Window)
    ensures Total(CountedIn(all, events, market), Funding, w) == CountedTotal(all, events, market, w)
  {
    if events != [] {
      var m := |events| - 1;
      CountedTotalIsTotal(all, events[..m], market, w);
      TotalConcat(CountedIn(all, events[..m], market), if Counted(all, events[m], market) then [events[m]] else [], Funding, w);
      assert [events[m]][..0] == [];
    }
  }

  lemma {:induction false} CountedMultiset(all: seq<Event>, events: seq<Event>, market: int, e: Event)
    ensures multiset(CountedIn(all, events, market))[e] == if Counted(all, e, market) then multiset(events)[e] else 0
  {
    if events != [] {
      var m := |events| - 1;
      CountedMultiset(all, events[..m], market, e);
      assert events == events[..m] + [events[m]];
    }
  }

  /** Re-ordering the events re-orders the reconciled ones and changes no sum over them. */
  lemma ReconciledOrderFree(a: seq<Event>, b: seq<Event>, market: int, f: Field, w: Window)
    requires multiset(a) == multiset(b)
    ensures Total(ReconciledFunding(a, market), f, w) == Total(ReconciledFunding(b, market), f, w)
  {
    forall e ensures e in a <==> e in b {
      assert e in multiset(a) <==> e in multiset(b);
    }
    var ra, rb := ReconciledFunding(a, market), ReconciledFunding(b, market);
    forall e ensures multiset(ra)[e] == multiset(rb)[e] {
      CountedMultiset(a, a, market, e);
      CountedMultiset(b, b, market, e);
      assert Counted(a, e, market) == Counted(b, e, market);
    }
    assert multiset(ra) == multiset(rb);
    TotalOrderFree(ra, rb, f, w);
  }

  /** An account row that mirrors a settled position row adds nothing to any sum. */
  lemma MirrorAddsNothing(events: seq<Event>, mirror: Event, p: Event, market: int, w: Window)
    requires mirror.stream.AccountHistory? && p in events && Settles(p, mirror, market)
    ensures Total(ReconciledFunding(events + [mirror], market), Funding, w) == Total(ReconciledFunding(events, market), Funding, w)
  {
    var all := events + [mirror];
    assert p in all;
    assert all[..|all| - 1] == events && all[|all| - 1] == mirror;
    forall e ensures Counted(all, e, market) == Counted(events, e, market) {
      forall q | q in all && Settles(q, e, market) ensures q in events {}
      assert forall q :: q in events ==> q in all;
    }
    SameCounted(all, events, events, market, w);
    CountedTotalIsTotal(all, all, market, w);
    CountedTotalIsTotal(events, events, market, w);
  }

  lemma {:induction false} SameCounted(all: seq<Event>, other: seq<Event>, events: seq<Event>, market: int, w: Window)
    requires forall e :: e in events ==> Counted(all, e, market) == Counted(other, e, market)
    ensures CountedTotal(all, events, market, w) == CountedTotal(other, events, market, w)
  {
    if events != [] {
      SameCounted(all, other, events[..|events| - 1], market, w);
    }
  }
}
