/** Rows of the venue's three history feeds, and how one row becomes stored accounting events. */
module PerplHistory {
  import opened Options

  datatype Stream = AccountHistory | PositionHistory | Fills

  datatype TxRef = ByHash(txid: string) | ByIndex(block: nat, index: nat)

  /** One on-chain log: the same log may be reported by two streams. */
  datatype LogKey = LogKey(tx: TxRef, log: nat)

  datatype Stamp = Stamp(t: int, block: Option<nat>, tx: Option<nat>, log: Option<nat>, txid: Option<string>)

  /** One record as the venue sends it. `parses` is the verdict of the stream's schema. */
  datatype RawEvent = RawEvent(
    at: Stamp, owner: int, instance: int, market: Option<int>, position: Option<int>,
    kind: Option<int>, order: Option<int>, amount: int, fee: int,
    funding: Option<int>, pnl: Option<int>, parses: bool)

  /** A position row may carry the settlement events it summarises, each already merged with its parent. */
  datatype Row = Row(own: RawEvent, nested: Option<seq<RawEvent>>)

  /** Identity of an event. The source hashes this tuple; amounts are not part of it. */
  datatype Identity = Identity(
    stream: Stream, logKey: LogKey, owner: int, market: Option<int>, position: Option<int>,
    kind: Option<int>, order: Option<int>)

  datatype Event = Event(
    id: Identity, stream: Stream, at: int, logKey: LogKey, marketId: Option<int>, positionId: Option<int>,
    fundingRaw: Option<int>, tradingFeeRaw: Option<int>, realisedTradingPnlRaw: Option<int>)

  datatype Binding = Binding(accountId: int, instanceId: int, marketId: int, historyFrom: Option<int>)

  const FUNDING_KIND := 8

  function LogKeyOf(at: Stamp): Option<LogKey> {
    if at.log.None? then None
    else if at.txid.Some? then Some(LogKey(ByHash(at.txid.value), at.log.value))
    else if at.block.None? || at.tx.None? then None
    else Some(LogKey(ByIndex(at.block.value, at.tx.value), at.log.value))
  }

  /** None stands for the thrown "no stable transaction/log identity". */
  function EventIdentity(stream: Stream, raw: RawEvent): Option<Identity> {
    match LogKeyOf(raw.at)
    case None => None
    case Some(key) => Some(Identity(stream, key, raw.owner, raw.market, raw.position, raw.kind, raw.order))
  }

  /** The records a row stands for. A parent with nested events is never counted beside them. */
  function Entries(stream: Stream, row: Row): seq<RawEvent> {
    if stream.PositionHistory? && row.nested.Some? then row.nested.value else [row.own]
  }

  /** Malformed stands for a throw, Skipped for a record outside the bound account or before its floor. */
  datatype Normalized = Malformed | Skipped | Kept(event: Event)

  function GrossFunding(stream: Stream, raw: RawEvent): Option<int> {
    match stream
    case PositionHistory => raw.funding
    case AccountHistory => if raw.kind == Some(FUNDING_KIND) then Some(raw.amount + raw.fee) else None
    case Fills => None
  }

  function NormalizeEntry(stream: Stream, raw: RawEvent, binding: Binding): Normalized {
    if !raw.parses then Malformed
    else if raw.owner != binding.accountId || (stream.AccountHistory? && raw.instance != binding.instanceId) then Skipped
    else if binding.historyFrom.Some? && raw.at.t < binding.historyFrom.value then Skipped
    else
      match EventIdentity(stream, raw)
      case None => Malformed
      case Some(id) =>
        Kept(Event(
               id, stream, raw.at.t, id.logKey, raw.market,
               if stream.Fills? then None else raw.position,
               GrossFunding(stream, raw),
               if stream.Fills? then Some(raw.fee) else None,
               if stream.PositionHistory? then raw.pnl else None))
  }

  /** Events of a list of records, or None when one of them makes the source throw. */
  function NormalizeEntries(stream: Stream, raws: seq<RawEvent>, binding: Binding): Option<seq<Event>> {
    if raws == [] then Some([])
    else
      match NormalizeEntry(stream, raws[0], binding)
      case Malformed => None
      case Skipped => NormalizeEntries(stream, raws[1..], binding)
      case Kept(e) =>
        match NormalizeEntries(stream, raws[1..], binding)
        case None => None
        case Some(es) => Some([e] + es)
  }

  function AllEntries(stream: Stream, rows: seq<Row>): seq<RawEvent> {
    if rows == [] then [] else Entries(stream, rows[0]) + AllEntries(stream, rows[1..])
  }

  function NormalizeHistoryEvents(stream: Stream, rows: seq<Row>, binding: Binding): Option<seq<Event>> {
    NormalizeEntries(stream, AllEntries(stream, rows), binding)
  }

  type Store = map<Identity, Event>

  /** Insert-once: a later write under a known identity changes nothing. */
  function SaveEvent(store: Store, e: Event): Store {
    if e.id in store then store else store[e.id := e]
  }

  function SaveEvents(store: Store, events: seq<Event>): Store
    decreases |events|
  {
    if events == [] then store else SaveEvents(SaveEvent(store, events[0]), events[1..])
  }

  lemma {:induction false} EntriesAppear(stream: Stream, rows: seq<Row>, i: nat, x: RawEvent)
    requires i < |rows| && x in Entries(stream, rows[i])
    ensures x in AllEntries(stream, rows)
  {
    if i > 0 {
      EntriesAppear(stream, rows[1..], i - 1, x);
    }
  }

  lemma {:induction false} EntriesComeFromRows(stream: Stream, rows: seq<Row>, x: RawEvent) returns (i: nat)
    requires x in AllEntries(stream, rows)
    ensures i < |rows| && x in Entries(stream, rows[i])
  {
    if x in Entries(stream, rows[0]) {
      i := 0;
    } else {
      var j := EntriesComeFromRows(stream, rows[1..], x);
      i := j + 1;
    }
  }

  /** A batch that does not throw keeps exactly the in-scope records: none dropped, none invented. */
  lemma {:induction false} NormalizeEntriesExact(stream: Stream, raws: seq<RawEvent>, binding: Binding)
    requires NormalizeEntries(stream, raws, binding).Some?
    ensures var es := NormalizeEntries(stream, raws, binding).value;
            && (forall x :: x in raws ==> !NormalizeEntry(stream, x, binding).Malformed?)
            && (forall x :: x in raws && NormalizeEntry(stream, x, binding).Kept? ==> NormalizeEntry(stream, x, binding).event in es)
            && (forall e :: e in es ==> exists x :: x in raws && NormalizeEntry(stream, x, binding) == Kept(e))
  {
    if raws != [] {
      NormalizeEntriesExact(stream, raws[1..], binding);
      assert forall x :: x in raws <==> x == raws[0] || x in raws[1..];
      var es := NormalizeEntries(stream, raws, binding).value;
      forall e | e in es ensures exists x :: x in raws && NormalizeEntry(stream, x, binding) == Kept(e) {
        if NormalizeEntry(stream, raws[0], binding) != Kept(e) {
          var x :| x in raws[1..] && NormalizeEntry(stream, x, binding) == Kept(e);
          assert x in raws;
        } else {
          assert raws[0] in raws;
        }
      }
    }
  }

  lemma {:induction false} NormalizeExact(stream: Stream, rows: seq<Row>, binding: Binding)
    requires NormalizeHistoryEvents(stream, rows, binding).Some?
    ensures var es := NormalizeHistoryEvents(stream, rows, binding).value;
            && (forall i, x :: 0 <= i < |rows| && x in Entries(stream, rows[i]) ==>
                  match NormalizeEntry(stream, x, binding) case Malformed => false case Skipped => true case Kept(e) => e in es)
            && (forall e :: e in es ==>
                  exists i, x :: 0 <= i < |rows| && x in Entries(stream, rows[i]) && NormalizeEntry(stream, x, binding) == Kept(e))
  {
    var all := AllEntries(stream, rows);
    var es := NormalizeHistoryEvents(stream, rows, binding).value;
    NormalizeEntriesExact(stream, all, binding);
    forall i, x | 0 <= i < |rows| && x in Entries(stream, rows[i])
      ensures match NormalizeEntry(stream, x, binding) case Malformed => false case Skipped => true case Kept(e) => e in es
    {
      EntriesAppear(stream, rows, i, x);
    }
    forall e | e in es
      ensures exists i, x :: 0 <= i < |rows| && x in Entries(stream, rows[i]) && NormalizeEntry(stream, x, binding) == Kept(e)
    {
      var x :| x in all && NormalizeEntry(stream, x, binding) == Kept(e);
      var i := EntriesComeFromRows(stream, rows, x);
    }
  }

  /** A batch throws only over a record that does not parse or has no identity. */
  lemma {:induction false} NormalizeFails(stream: Stream, rows: seq<Row>, binding: Binding) returns (i: nat, x: RawEvent)
    requires NormalizeHistoryEvents(stream, rows, binding).None?
    ensures i < |rows| && x in Entries(stream, rows[i]) && NormalizeEntry(stream, x, binding).Malformed?
  {
    x := FirstMalformed(stream, AllEntries(stream, rows), binding);
    i := EntriesComeFromRows(stream, rows, x);
  }

  lemma {:induction false} FirstMalformed(stream: Stream, raws: seq<RawEvent>, binding: Binding) returns (x: RawEvent)
    requires NormalizeEntries(stream, raws, binding).None?
    ensures x in raws && NormalizeEntry(stream, x, binding).Malformed?
  {
    if NormalizeEntry(stream, raws[0], binding).Malformed? {
      x := raws[0];
    } else {
      x := FirstMalformed(stream, raws[1..], binding);
    }
  }

  // ---- Redelivery ----

  /** What a batch leaves under an identity: what was there, or the first of the batch that bears it. */
  lemma {:induction false} SavedUnder(store: Store, events: seq<Event>, id: Identity)
    ensures var after := SaveEvents(store, events);
            && (id in after <==> id in store || exists e :: e in events && e.id == id)
            && (id in store ==> after[id] == store[id])
            && (id in after && id !in store ==> after[id] in events && after[id].id == id)
    decreases |events|
  {
    if events != [] {
      SavedUnder(SaveEvent(store, events[0]), events[1..], id);
      assert forall e :: e in events <==> e == events[0] || e in events[1..];
    }
  }

  /** Replaying records already delivered, in any order and any number, changes nothing. */
  lemma {:induction false} RedeliveryChangesNothing(store: Store, events: seq<Event>, again: seq<Event>)
    requires forall e :: e in again ==> e in events || e.id in store
    ensures SaveEvents(SaveEvents(store, events), again) == SaveEvents(store, events)
  {
    var once := SaveEvents(store, events);
    var twice := SaveEvents(once, again);
    forall id ensures (id in twice <==> id in once) && (id in once ==> twice[id] == once[id]) {
      SavedUnder(store, events, id);
      SavedUnder(once, again, id);
    }
    assert twice.Keys == once.Keys;
  }

  /** When an identity stands for one event, the order of delivery does not matter either. */
  lemma {:induction false} SaveOrderFree(store: Store, a: seq<Event>, b: seq<Event>)
    requires forall e :: e in a <==> e in b
    requires forall e, f :: e in a && f in a && e.id == f.id ==> e == f
    ensures SaveEvents(store, a) == SaveEvents(store, b)
  {
    var x, y := SaveEvents(store, a), SaveEvents(store, b);
    forall id ensures (id in x <==> id in y) && (id in x ==> x[id] == y[id]) {
      SavedUnder(store, a, id);
      SavedUnder(store, b, id);
    }
    assert x.Keys == y.Keys;
  }
}
