// What the stored events are worth, told from the venue's raw records: which are in scope, which amounts of which
// records count, and that a movement counts once however many streams report it.
module PerplAmounts {
  import opened Options
  import opened PerplHistory
  import opened AccountingMath

  /** A record of the bound account, and of its instance where the stream tells, at or after the configured floor. */
  ghost predicate InScope(stream: Stream, raw: RawEvent, b: Binding) {
    && raw.owner == b.accountId && (stream == AccountHistory ==> raw.instance == b.instanceId)
    && (b.historyFrom.Some? ==> b.historyFrom.value <= raw.at.t)
  }

  /** What a record moves: account funding is its amount with the fee put back. */
  ghost function Moves(stream: Stream, raw: RawEvent, f: Field): Option<int> {
    match f
    case Funding =>
      if stream == AccountHistory && raw.kind == Some(8) then Some(raw.amount + raw.fee)
      else if stream == PositionHistory then raw.funding
      else None
    case Fees => if stream == Fills then Some(raw.fee) else None
    case Pnl => if stream == PositionHistory then raw.pnl else None
  }

  ghost function RecordSum(stream: Stream, raws: seq<RawEvent>, b: Binding, f: Field, w: Window): int {
    if raws == [] then 0
    else
      var raw, moved := raws[0], Moves(stream, raws[0], f);
      (if InScope(stream, raw, b) && In(raw.at.t, w) && moved.Some? then moved.value else 0) + RecordSum(stream, raws[1..], b, f, w)
  }

  /** A position row that carries the movements it sums up counts through them alone, any other row by itself. */
  ghost function RowSum(stream: Stream, rows: seq<Row>, b: Binding, f: Field, w: Window): int {
    if rows == [] then 0
    else
      var row := rows[0];
      RecordSum(stream, if stream == PositionHistory && row.nested.Some? then row.nested.value else [row.own], b, f, w)
      + RowSum(stream, rows[1..], b, f, w)
  }

  /** An event keeps its record's time, log, market and position, and what it moves. */
  lemma KeptIsRecord(stream: Stream, raw: RawEvent, b: Binding)
    requires NormalizeEntry(stream, raw, b).Kept?
    ensures InScope(stream, raw, b)
    ensures var e := NormalizeEntry(stream, raw, b).event;
            && e.stream == stream && e.at == raw.at.t && Some(e.logKey) == LogKeyOf(raw.at)
            && e.marketId == raw.market && e.positionId == (if stream == Fills then None else raw.position)
            && e.fundingRaw == Moves(stream, raw, Funding) && e.tradingFeeRaw == Moves(stream, raw, Fees)
            && e.realisedTradingPnlRaw == Moves(stream, raw, Pnl)
  {
  }

  lemma SkippedIsOutside(stream: Stream, raw: RawEvent, b: Binding)
    requires NormalizeEntry(stream, raw, b).Skipped?
    ensures !InScope(stream, raw, b)
  {
  }

  lemma TotalCons(e: Event, rest: seq<Event>, f: Field, w: Window)
    ensures Total([e] + rest, f, w) == Share(e, f, w) + Total(rest, f, w)
  {
    TotalConcat([e], rest, f, w);
    assert [e][..0] == [];
  }

  lemma {:induction false} RecordsTotal(stream: Stream, raws: seq<RawEvent>, b: Binding, f: Field, w: Window)
    requires NormalizeEntries(stream, raws, b).Some?
    ensures Total(NormalizeEntries(stream, raws, b).value, f, w) == RecordSum(stream, raws, b, f, w)
  {
    if raws != [] {
      RecordsTotal(stream, raws[1..], b, f, w);
      var n := NormalizeEntry(stream, raws[0], b);
      if n.Kept? {
        KeptIsRecord(stream, raws[0], b);
        TotalCons(n.event, NormalizeEntries(stream, raws[1..], b).value, f, w);
      } else {
        SkippedIsOutside(stream, raws[0], b);
      }
    }
  }

  lemma {:induction false} RecordSumConcat(stream: Stream, r: seq<RawEvent>, s: seq<RawEvent>, b: Binding, f: Field, w: Window)
    ensures RecordSum(stream, r + s, b, f, w) == RecordSum(stream, r, b, f, w) + RecordSum(stream, s, b, f, w)
  {
    if r == [] {
      assert r + s == s;
    } else {
      assert (r + s)[0] == r[0] && (r + s)[1..] == r[1..] + s;
      RecordSumConcat(stream, r[1..], s, b, f, w);
    }
  }

  lemma {:induction false} RowsAreRecords(stream: Stream, rows: seq<Row>, b: Binding, f: Field, w: Window)
    ensures RecordSum(stream, AllEntries(stream, rows), b, f, w) == RowSum(stream, rows, b, f, w)
  {
    if rows != [] {
      RowsAreRecords(stream, rows[1..], b, f, w);
      RecordSumConcat(stream, Entries(stream, rows[0]), AllEntries(stream, rows[1..]), b, f, w);
    }
  }

  /**
   A batch that does not throw is worth, in any window, what the raw records of its rows say: account funding with
   the fee put back, position funding and results as they stand, fees of fills, and nothing else.
   */
  lemma BatchWorth(stream: Stream, rows: seq<Row>, b: Binding, f: Field, w: Window)
    requires NormalizeHistoryEvents(stream, rows, b).Some?
    ensures Total(NormalizeHistoryEvents(stream, rows, b).value, f, w) == RowSum(stream, rows, b, f, w)
  {
    RecordsTotal(stream, AllEntries(stream, rows), b, f, w);
    RowsAreRecords(stream, rows, b, f, w);
  }

  // ---- One movement, one or two reports ----

  ghost function Worth(events: seq<Event>, market: int, w: Window): int { Total(ReconciledFunding(events, market), Funding, w) }

  lemma AddsItself(events: seq<Event>, e: Event, market: int, w: Window)
    requires forall q :: q in events ==> Counted(events + [e], q, market) == Counted(events, q, market)
    ensures Worth(events + [e], market, w) == Worth(events, market, w) + (if Counted(events + [e], e, market) then Share(e, Funding, w) else 0)
  {
    var all := events + [e];
    assert all[..|all| - 1] == events && all[|all| - 1] == e;
    SameCounted(all, events, events, market, w);
    CountedTotalIsTotal(all, all, market, w);
    CountedTotalIsTotal(events, events, market, w);
  }

  /** Only a position row that moves something stands in for account rows. */
  lemma SuppressesNothing(events: seq<Event>, e: Event, market: int)
    requires forall q :: q in events && q.stream.AccountHistory? ==> !Settles(e, q, market)
    ensures forall q :: q in events ==> Counted(events + [e], q, market) == Counted(events, q, market)
  {
    forall q | q in events ensures Counted(events + [e], q, market) == Counted(events, q, market) {
      assert forall p :: p in events + [e] <==> p in events || p == e;
    }
  }

  /** A position row that moves nothing changes no sum, whatever account rows name its log. */
  lemma ZeroRowChangesNothing(events: seq<Event>, p: Event, market: int, w: Window)
    requires p.stream.PositionHistory? && (p.fundingRaw.None? || p.fundingRaw.value == 0)
    ensures Worth(events + [p], market, w) == Worth(events, market, w)
  {
    SuppressesNothing(events, p, market);
    AddsItself(events, p, market, w);
  }

  /** The account record and the position record tell of one movement, of `amount`, in one market. */
  ghost predicate SameMovement(a: RawEvent, p: RawEvent, market: int, amount: int) {
    && a.at == p.at && a.market == p.market == Some(market) && a.position == p.position
    && a.kind == Some(8) && a.amount + a.fee == amount && p.funding == Some(amount)
  }

  /** No other event tells of a log and position. */
  ghost predicate Unshared(events: seq<Event>, e: Event) {
    forall q :: q in events ==> !(q.logKey == e.logKey && q.positionId == e.positionId)
  }

  lemma AccountAlone(events: seq<Event>, e: Event, market: int, w: Window)
    requires e.stream.AccountHistory? && ReportsFunding(e, market) && Unshared(events, e)
    ensures Worth(events + [e], market, w) == Worth(events, market, w) + Share(e, Funding, w)
  {
    SuppressesNothing(events, e, market);
    AddsItself(events, e, market, w);
    assert forall q :: q in events + [e] ==> !Settles(q, e, market);
  }

  lemma PositionAlone(events: seq<Event>, e: Event, market: int, w: Window)
    requires e.stream.PositionHistory? && ReportsFunding(e, market) && Unshared(events, e)
    ensures Worth(events + [e], market, w) == Worth(events, market, w) + Share(e, Funding, w)
  {
    SuppressesNothing(events, e, market);
    AddsItself(events, e, market, w);
  }

  /** A position row after its mirror takes the mirror's place. */
  lemma PositionAfterMirror(events: seq<Event>, ea: Event, ep: Event, market: int, w: Window)
    requires Settles(ep, ea, market) && ea.stream.AccountHistory? && ReportsFunding(ea, market) && Unshared(events, ea)
    ensures Worth(events + [ea] + [ep], market, w) == Worth(events, market, w) + Share(ep, Funding, w)
  {
    PositionAlone(events, ep, market, w);
    MirrorAddsNothing(events + [ep], ea, ep, market, w);
    SwapLast(events, ea, ep);
    ReconciledOrderFree(events + [ea] + [ep], events + [ep] + [ea], market, Funding, w);
  }

  lemma SwapLast(events: seq<Event>, e: Event, f: Event)
    ensures multiset(events + [e] + [f]) == multiset(events + [f] + [e])
  {
  }

  /**
   The mirror law, from the raw records: a movement that one stream reports, the other, or both in either order, adds
   its amount once, beside any events that do not tell of the same log and position.
   */
  lemma MovementSettlesOnce(a: RawEvent, p: RawEvent, b: Binding, market: int, amount: int, events: seq<Event>, w: Window)
    requires NormalizeEntry(AccountHistory, a, b).Kept? && NormalizeEntry(PositionHistory, p, b).Kept? && SameMovement(a, p, market, amount)
    requires Unshared(events, NormalizeEntry(AccountHistory, a, b).event)
    ensures var ea, ep := NormalizeEntry(AccountHistory, a, b).event, NormalizeEntry(PositionHistory, p, b).event;
            var after := Worth(events, market, w) + (if In(a.at.t, w) then amount else 0);
            && Worth(events + [ea], market, w) == after && Worth(events + [ep], market, w) == after
            && Worth(events + [ea] + [ep], market, w) == after && Worth(events + [ep] + [ea], market, w) == after
  {
    KeptIsRecord(AccountHistory, a, b);
    KeptIsRecord(PositionHistory, p, b);
    var ea, ep := NormalizeEntry(AccountHistory, a, b).event, NormalizeEntry(PositionHistory, p, b).event;
    AccountAlone(events, ea, market, w);
    PositionAlone(events, ep, market, w);
    SwapLast(events, ea, ep);
    ReconciledOrderFree(events + [ea] + [ep], events + [ep] + [ea], market, Funding, w);
    if amount != 0 {
      PositionAfterMirror(events, ea, ep, market, w);
    } else {
      ZeroRowChangesNothing(events + [ea], ep, market, w);
    }
  }

  // ---- Identities ----

  /** The stamps name one log: by transaction hash, or where neither has one by place in the block. */
  ghost predicate OneLog(r: Stamp, s: Stamp) {
    && r.log == s.log && r.txid == s.txid
    && (r.txid.None? ==> r.block == s.block && r.tx == s.tx)
  }

  /** Two records are taken for one event exactly when stream, log, owner, market, position, kind and order agree; amounts do not matter. */
  lemma OneIdentityExactly(s: Stream, r: RawEvent, t: Stream, q: RawEvent)
    requires EventIdentity(s, r).Some? && EventIdentity(t, q).Some?
    ensures EventIdentity(s, r) == EventIdentity(t, q) <==>
            s == t && OneLog(r.at, q.at) && r.owner == q.owner && r.market == q.market && r.position == q.position
            && r.kind == q.kind && r.order == q.order
  {
  }

  /** A record has no identity exactly when it names no log, or neither a transaction hash nor a place in a block. */
  lemma NoIdentityExactly(s: Stream, r: RawEvent)
    ensures EventIdentity(s, r).None? <==> r.at.log.None? || (r.at.txid.None? && (r.at.block.None? || r.at.tx.None?))
  {
  }
}
