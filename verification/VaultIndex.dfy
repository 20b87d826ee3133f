/** Who has ever held shares and which validators were staked with, kept up to date window by window and agreeing with one scan of the whole range. */
module VaultIndexing {
  import opened BlockRanges
  import opened Options

  const CONCURRENCY := 8
  const ATTEMPTS := 6
  const ZERO_ADDRESS := 0

  datatype Log = Transfer(to: nat) | Staked(validator: nat) | Other

  /** What a naive scan of the blocks from..to finds. */
  ghost predicate Held(logs: nat -> seq<Log>, from: nat, to: int, a: nat) {
    a != ZERO_ADDRESS && exists b: nat, i: nat :: from <= b <= to && i < |logs(b)| && logs(b)[i] == Transfer(a)
  }

  ghost predicate StakedWith(logs: nat -> seq<Log>, from: nat, to: int, v: nat) {
    exists b: nat, i: nat :: from <= b <= to && i < |logs(b)| && logs(b)[i] == Staked(v)
  }

  datatype Index = Index(syncedTo: int, holders: set<nat>, validators: set<nat>, complete: bool)

  /** The index says exactly what a naive scan of [deployedAt, syncedTo] would. */
  ghost predicate Agrees(logs: nat -> seq<Log>, deployedAt: nat, x: Index) {
    && x.syncedTo >= deployedAt - 1
    && (forall a: nat :: a in x.holders <==> Held(logs, deployedAt, x.syncedTo, a))
    && (forall v: nat :: v in x.validators <==> StakedWith(logs, deployedAt, x.syncedTo, v))
  }

  function TransfersTo(batch: seq<Log>): set<nat> {
    set i | 0 <= i < |batch| && batch[i].Transfer? && batch[i].to != ZERO_ADDRESS :: batch[i].to
  }

  function ValidatorsIn(batch: seq<Log>): set<nat> { set i | 0 <= i < |batch| && batch[i].Staked? :: batch[i].validator }

  /** Adding the logs of the next blocks extends the scan to them. */
  lemma AgreesGrows(logs: nat -> seq<Log>, deployedAt: nat, x: Index, to: nat)
    requires Agrees(logs, deployedAt, x) && x.syncedTo < to
    ensures var batch := LogsIn(logs, x.syncedTo + 1, to);
            Agrees(logs, deployedAt, Index(to, x.holders + TransfersTo(batch), x.validators + ValidatorsIn(batch), x.complete))
  {
    var from := x.syncedTo + 1;
    var batch := LogsIn(logs, from, to);
    forall a: nat ensures a in x.holders + TransfersTo(batch) <==> Held(logs, deployedAt, to, a) {
      HoldersGrow(logs, deployedAt, from, to, a);
    }
    forall v: nat ensures v in x.validators + ValidatorsIn(batch) <==> StakedWith(logs, deployedAt, to, v) {
      ValidatorsGrow(logs, deployedAt, from, to, v);
    }
  }

  lemma HoldersGrow(logs: nat -> seq<Log>, first: nat, from: nat, to: nat, a: nat)
    requires first <= from <= to
    ensures Held(logs, first, to, a) <==> Held(logs, first, from - 1, a) || a in TransfersTo(LogsIn(logs, from, to))
  {
    var batch := LogsIn(logs, from, to);
    if Held(logs, first, to, a) {
      var b: nat, i: nat :| first <= b <= to && i < |logs(b)| && logs(b)[i] == Transfer(a);
      if b >= from { LogsInHas(logs, from, to, b, i); }
    }
    if a in TransfersTo(batch) {
      var b, i := LogsInFrom(logs, from, to, Transfer(a));
    }
  }

  lemma ValidatorsGrow(logs: nat -> seq<Log>, first: nat, from: nat, to: nat, v: nat)
    requires first <= from <= to
    ensures StakedWith(logs, first, to, v) <==> StakedWith(logs, first, from - 1, v) || v in ValidatorsIn(LogsIn(logs, from, to))
  {
    var batch := LogsIn(logs, from, to);
    if StakedWith(logs, first, to, v) {
      var b: nat, i: nat :| first <= b <= to && i < |logs(b)| && logs(b)[i] == Staked(v);
      if b >= from { LogsInHas(logs, from, to, b, i); }
    }
    if v in ValidatorsIn(batch) {
      var b, i := LogsInFrom(logs, from, to, Staked(v));
    }
  }

  lemma {:induction false} LogsInJoin<T>(logs: nat -> seq<T>, from: nat, mid: nat, to: nat)
    requires from <= mid <= to
    ensures LogsIn(logs, from, to) == LogsIn(logs, from, mid) + LogsIn(logs, mid + 1, to)
    decreases mid - from
  {
    if from == mid {
      assert LogsIn(logs, from + 1, mid) == [];
    } else {
      LogsInJoin(logs, from + 1, mid, to);
    }
  }

  /** What becomes of a save: written, refused with the file as it was, or broken off with the file torn. */
  datatype SaveFate = Saved | Refused | Torn

  /** How one window goes: failed tries before each chunk's answer, whether it is time to save, and how that goes. */
  datatype Turn = Turn(failures: nat -> nat, saveDue: bool, save: SaveFate)

  /** The process lives through the window that starts behind `at`, its chunks come in, and its save, if due, is written. */
  ghost predicate Passes(schedule: seq<Turn>, k: nat, at: int, head: int) {
    && k < |schedule|
    && (forall c: nat :: c < CONCURRENCY && at + c * CHUNK < head ==> schedule[k].failures(c) < ATTEMPTS)
    && (schedule[k].saveDue ==> schedule[k].save.Saved?)
  }

  /** Every window from `at` to the head goes through. */
  ghost predicate AllPass(schedule: seq<Turn>, at: int, head: int) {
    forall k: nat :: at + k * (CONCURRENCY * CHUNK) < head ==> Passes(schedule, k, at + k * (CONCURRENCY * CHUNK), head)
  }

  class VaultIndexer {
    const logs: nat -> seq<Log>
    const deployedAt: nat
    // In memory.
    var syncedTo: int
    var holders: set<nat>
    var validators: set<nat>
    var complete: bool
    // On disk; None when missing or unreadable.
    var cache: Option<Index>

    ghost function Current(): Index
      reads this
    {
      Index(syncedTo, holders, validators, complete)
    }

    /** Memory and cache each agree with a naive scan; the cache may be any amount older. */
    ghost predicate Valid()
      reads this
    {
      && Agrees(logs, deployedAt, Current())
      && (cache.Some? ==> Agrees(logs, deployedAt, cache.value))
    }

    constructor (logs: nat -> seq<Log>, deployedAt: nat)
      ensures Valid() && cache.None? && syncedTo == deployedAt - 1
    {
      this.logs, this.deployedAt := logs, deployedAt;
      syncedTo, holders, validators, complete, cache := deployedAt - 1, {}, {}, false, None;
    }

    /** What a restart finds: the cache, or nothing. */
    method Load()
      requires Valid()
      modifies this`syncedTo, this`holders, this`validators, this`complete
      ensures Valid()
      ensures cache.Some? ==> Current() == cache.value
      ensures cache.None? ==> Current() == Index(deployedAt - 1, {}, {}, false)
    {
      if cache.Some? {
        syncedTo, holders, validators, complete := cache.value.syncedTo, cache.value.holders, cache.value.validators, cache.value.complete;
      } else {
        syncedTo, holders, validators, complete := deployedAt - 1, {}, {}, false;
      }
    }

    /** A save that throws leaves the old file, or none that can be read. */
    method Save(fate: SaveFate) returns (ok: bool)
      requires Valid()
      modifies this`cache
      ensures Valid() && (ok <==> fate.Saved?)
      ensures cache == if ok then Some(Current()) else if fate.Torn? then None else old(cache)
    {
      ok := fate.Saved?;
      if ok {
        cache := Some(Index(syncedTo, holders, validators, complete));
      } else if fate.Torn? {
        cache := None;
      }
    }

    /** The file is lost or torn. */
    method LoseCache()
      requires Valid()
      modifies this`cache
      ensures Valid() && cache.None?
    {
      cache := None;
    }

    /** One query: six tries, then it fails. */
    method FetchRange(from: nat, to: nat, failures: nat) returns (batch: Option<seq<Log>>)
      ensures batch.None? <==> failures >= 6
      ensures batch.Some? ==> batch.value == LogsIn(logs, from, to)
    {
      var attempt := 0;
      while attempt < failures
        invariant attempt <= failures && attempt < ATTEMPTS
      {
        if attempt >= ATTEMPTS - 1 { return None; }
        attempt := attempt + 1;
      }
      batch := Some(LogsIn(logs, from, to));
    }

    /** The ranges of the next window: consecutive, full but for the last, up to CONCURRENCY of them. */
    method Window(head: int) returns (ranges: seq<(nat, nat)>)
      requires -1 <= syncedTo < head
      ensures 1 <= |ranges| <= CONCURRENCY
      ensures forall c :: 0 <= c < CONCURRENCY ==> (c < |ranges| <==> syncedTo + c * CHUNK < head)
      ensures Tiles(ranges, syncedTo + 1, ranges[|ranges| - 1].1) && syncedTo < ranges[|ranges| - 1].1 <= head
      ensures ranges[|ranges| - 1].1 == if syncedTo + CONCURRENCY * CHUNK > head then head else syncedTo + CONCURRENCY * CHUNK
    {
      ranges := [];
      var i := 0;
      while i < CONCURRENCY && syncedTo + i * CHUNK < head
        invariant 0 <= i == |ranges| <= CONCURRENCY
        invariant i > 0 ==> syncedTo + (i - 1) * CHUNK < head
        invariant i > 0 ==> Tiles(ranges, syncedTo + 1, ranges[i - 1].1)
        invariant i > 0 ==> syncedTo < ranges[i - 1].1 == (if syncedTo + i * CHUNK > head then head else syncedTo + i * CHUNK)
      {
        var from := syncedTo + 1 + i * CHUNK;
        var to := if from + CHUNK - 1 > head then head else from + CHUNK - 1;
        ranges := Extended(ranges, syncedTo + 1, from, to);
        i := i + 1;
      }
    }

    /** All chunks of a window, or None if any of them fails for good. */
    method FetchWindow(ranges: seq<(nat, nat)>, failures: nat -> nat) returns (batch: Option<seq<Log>>)
      requires ranges != [] && Tiles(ranges, ranges[0].0, ranges[|ranges| - 1].1)
      ensures batch.None? <==> exists k: nat :: k < |ranges| && failures(k) >= ATTEMPTS
      ensures batch.Some? ==> batch.value == LogsIn(logs, ranges[0].0, ranges[|ranges| - 1].1)
    {
      var all: seq<Log> := [];
      var k := 0;
      while k < |ranges|
        invariant 0 <= k <= |ranges|
        invariant forall j :: 0 <= j < k ==> failures(j) < ATTEMPTS
        invariant k > 0 ==> all == LogsIn(logs, ranges[0].0, ranges[k - 1].1)
      {
        var part := FetchRange(ranges[k].0, ranges[k].1, failures(k));
        if part.None? { return None; }
        if k == 0 {
          all := part.value;
        } else {
          TilesNext(ranges, ranges[0].0, ranges[|ranges| - 1].1, k);
          LogsInJoin(logs, ranges[0].0, ranges[k - 1].1, ranges[k].1);
          all := all + part.value;
        }
        k := k + 1;
      }
      batch := Some(all);
    }

    method TakeLogs(batch: seq<Log>)
      modifies this`holders, this`validators
      ensures holders == old(holders) + TransfersTo(batch) && validators == old(validators) + ValidatorsIn(batch)
    {
      for i := 0 to |batch|
        invariant holders == old(holders) + TransfersTo(batch[..i])
        invariant validators == old(validators) + ValidatorsIn(batch[..i])
      {
        TakeOneMore(batch, i);
        match batch[i]
        case Transfer(a) =>
          if a != ZERO_ADDRESS { holders := holders + {a}; }
        case Staked(v) => validators := validators + {v};
        case Other =>
      }
      assert batch[..|batch|] == batch;
    }

    /** Applied only once the whole window is in. */
    method ApplyBatch(batch: seq<Log>, to: nat)
      requires Valid() && syncedTo < to && batch == LogsIn(logs, syncedTo + 1, to)
      modifies this`syncedTo, this`holders, this`validators
      ensures Valid() && syncedTo == to
      ensures old(holders) <= holders && old(validators) <= validators
    {
      AgreesGrows(logs, deployedAt, Current(), to);
      TakeLogs(batch);
      syncedTo := to;
    }

    /** One window: fetched whole, then applied, then saved if it is time. */
    method SyncWindow(head: int, turn: Turn, ghost schedule: seq<Turn>, ghost k: nat) returns (ok: bool)
      requires Valid() && -1 <= syncedTo < head && k < |schedule| && schedule[k] == turn
      modifies this`syncedTo, this`holders, this`validators, this`cache
      ensures Valid() && (ok <==> Passes(schedule, k, old(syncedTo), head))
      ensures old(syncedTo) <= syncedTo && old(holders) <= holders && old(validators) <= validators
      ensures syncedTo == old(syncedTo) || syncedTo == if old(syncedTo) + CONCURRENCY * CHUNK > head then head else old(syncedTo) + CONCURRENCY * CHUNK
      ensures ok ==> syncedTo > old(syncedTo)
    {
      var ranges := Window(head);
      TilesFirst(ranges, syncedTo + 1, ranges[|ranges| - 1].1);
      var batch := FetchWindow(ranges, turn.failures);
      if batch.None? { return false; }
      ApplyBatch(batch.value, ranges[|ranges| - 1].1);
      ok := true;
      if turn.saveDue { ok := Save(turn.save); }
    }

    /**
     Catches up with the head window by window; `last` is how the closing save goes. Whatever fails, memory and
     cache agree with a naive scan of what they claim. It succeeds exactly when the process lives through every
     window, every chunk comes in and every save is written. Failing, it has applied whole windows only, and
     calls the index complete only if it was, or if nothing but the closing save failed.
     */
    method Sync(head: int, schedule: seq<Turn>, last: SaveFate) returns (ok: bool)
      requires Valid() && head >= 0
      modifies this
      ensures Valid() && old(syncedTo) <= syncedTo
      ensures ok <==> AllPass(schedule, old(syncedTo), head) && last.Saved?
      ensures AllPass(schedule, old(syncedTo), head) ==> complete && syncedTo == (if old(syncedTo) < head then head else old(syncedTo))
      ensures ok ==> cache == Some(Current())
      ensures !AllPass(schedule, old(syncedTo), head) ==> complete == old(complete)
      ensures syncedTo >= head || exists k: nat :: syncedTo == old(syncedTo) + k * (CONCURRENCY * CHUNK)
      ensures old(holders) <= holders && old(validators) <= validators
    {
      ghost var first := syncedTo;
      var turn := 0;
      assert syncedTo == first + turn * (CONCURRENCY * CHUNK);
      while syncedTo < head
        invariant turn <= |schedule| && Valid() && first <= syncedTo && complete == old(complete)
        invariant syncedTo <= head || syncedTo == first
        invariant syncedTo < head ==> syncedTo == first + turn * (CONCURRENCY * CHUNK)
        invariant syncedTo >= head ==> forall k: nat :: first + k * (CONCURRENCY * CHUNK) < head ==> k < turn
        invariant forall k: nat :: k < turn ==> Passes(schedule, k, first + k * (CONCURRENCY * CHUNK), head)
        invariant old(holders) <= holders && old(validators) <= validators
        decreases head - syncedTo
      {
        // The process dies.
        if turn == |schedule| { return false; }
        ok := SyncWindow(head, schedule[turn], schedule, turn);
        if !ok {
          assert syncedTo < head ==> syncedTo == first + turn * (CONCURRENCY * CHUNK) || syncedTo == first + (turn + 1) * (CONCURRENCY * CHUNK);
          return;
        }
        turn := turn + 1;
      }
      complete := true;
      ok := Save(last);
    }
  }

  lemma TilesFirst(ranges: seq<(nat, nat)>, from: nat, ceiling: nat)
    requires Tiles(ranges, from, ceiling) && ranges != []
    ensures ranges[0].0 == from
  {
  }

  /** The next range starts right after the one before. */
  lemma {:induction false} TilesNext(ranges: seq<(nat, nat)>, from: nat, ceiling: nat, k: nat)
    requires Tiles(ranges, from, ceiling) && 0 < k < |ranges|
    ensures ranges[k].0 == ranges[k - 1].1 + 1 && from <= ranges[k - 1].1 && ranges[k].0 <= ranges[k].1
    decreases |ranges|
  {
    if k > 1 {
      TilesNext(ranges[1..], ranges[0].1 + 1, ceiling, k - 1);
    } else {
      assert ranges[1..][0] == ranges[1];
    }
  }

  lemma TakeOneMore(batch: seq<Log>, i: nat)
    requires i < |batch|
    ensures TransfersTo(batch[..i + 1]) == TransfersTo(batch[..i]) + TransfersTo([batch[i]])
    ensures ValidatorsIn(batch[..i + 1]) == ValidatorsIn(batch[..i]) + ValidatorsIn([batch[i]])
    ensures TransfersTo([batch[i]]) == if batch[i].Transfer? && batch[i].to != ZERO_ADDRESS then {batch[i].to} else {}
    ensures ValidatorsIn([batch[i]]) == if batch[i].Staked? then {batch[i].validator} else {}
  {
    var longer, one := batch[..i + 1], [batch[i]];
    assert one[0] == batch[i];
    if one[0].Transfer? && one[0].to != ZERO_ADDRESS { assert one[0].to in TransfersTo(one); }
    if one[0].Staked? { assert one[0].validator in ValidatorsIn(one); }
    forall a ensures a in TransfersTo(longer) <==> a in TransfersTo(batch[..i]) || a in TransfersTo(one) {
      if a in TransfersTo(batch[..i]) {
        var k :| 0 <= k < i && batch[..i][k] == Transfer(a);
        assert longer[k] == Transfer(a);
      }
      if a in TransfersTo(one) { assert one[0] == longer[i]; }
      if a in TransfersTo(longer) {
        var k :| 0 <= k < i + 1 && longer[k] == Transfer(a);
        if k < i { assert batch[..i][k] == Transfer(a); } else { assert one[0] == Transfer(a); }
      }
    }
    forall v ensures v in ValidatorsIn(longer) <==> v in ValidatorsIn(batch[..i]) || v in ValidatorsIn(one) {
      if v in ValidatorsIn(batch[..i]) {
        var k :| 0 <= k < i && batch[..i][k] == Staked(v);
        assert longer[k] == Staked(v);
      }
      if v in ValidatorsIn(one) { assert one[0] == longer[i]; }
      if v in ValidatorsIn(longer) {
        var k :| 0 <= k < i + 1 && longer[k] == Staked(v);
        if k < i { assert batch[..i][k] == Staked(v); } else { assert one[0] == Staked(v); }
      }
    }
  }
}
