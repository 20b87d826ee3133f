/** The session as the backend holds it: one object, event handlers and submit between its awaits, and the order frames built from it. */
module PerplTrading {
  import opened Options
  import opened PerplProtocol
  import opened PerplGuarantees
  import opened Decimals

  const MAX_SAFE_INTEGER := 9_007_199_254_740_991
  const DEFAULT_LEVERAGE := 100

  datatype OrderType = OpenShort | CloseShort

  /** A short is protected above and taken below, both against the mark. */
  datatype Condition = GteMark | LteMark

  datatype Trigger = Trigger(price: nat, condition: Condition, position: Option<int>)

  datatype Frame = Frame(market: int, kind: OrderType, size: nat, rq: int, sn: nat, leverage: int, trigger: Option<Trigger>)

  datatype Market = Market(id: int, isOpen: bool, sizeDecimals: nat, priceDecimals: nat)

  datatype ShortRequest = ShortRequest(market: Market, size: string, leverage: Option<int>, stopLoss: Option<string>, takeProfit: Option<string>)

  /** A scaled amount that goes on the wire as an exact number. */
  function Wire(value: string, decimals: nat): Option<nat> {
    match Scale(value, decimals)
    case Ok(n) => if n > MAX_SAFE_INTEGER then None else Some(n)
    case _ => None
  }

  predicate Placeable(price: Option<string>, decimals: nat) { price.None? || Wire(price.value, decimals).Some? }

  predicate EntryOk(req: ShortRequest) {
    && req.market.isOpen
    && (var size := Wire(req.size, req.market.sizeDecimals); size.Some? && size.value > 0)
    && (req.leverage.Some? ==> req.leverage.value > 0)
  }

  predicate Acceptable(req: ShortRequest) {
    EntryOk(req) && Placeable(req.stopLoss, req.market.priceDecimals) && Placeable(req.takeProfit, req.market.priceDecimals)
  }

  // ---- What a request must be, in the numbers its texts stand for ----

  /** The text is a decimal, and n units of 10^-d are exactly its value. */
  ghost predicate StandsFor(text: string, d: nat, n: nat) {
    var s := Trim(text);
    Decimal(s) && n * Pow10(Places(s)) == Numerator(s) * Pow10(d)
  }

  /** A whole number of units between `least` and the largest integer a double holds exactly. */
  ghost predicate Fits(text: string, d: nat, least: nat) {
    exists n: nat :: StandsFor(text, d, n) && least <= n <= 9_007_199_254_740_991
  }

  lemma WireExactly(text: string, d: nat, least: nat)
    ensures Fits(text, d, least) <==> Wire(text, d).Some? && least <= Wire(text, d).value
  {
    var s := Trim(text);
    ScaleExact(text, d);
    if n: nat :| StandsFor(text, d, n) && least <= n <= 9_007_199_254_740_991 {
      assert Expressible(s, d);
      CancelFactor(Pow10(Places(s)), n, Scale(text, d).value);
    }
    if Wire(text, d).Some? { assert StandsFor(text, d, Wire(text, d).value); }
  }

  /**
   A request is placeable exactly when the market is open, the size is a positive whole number of its units,
   any leverage asked for is positive and any price is a whole number of ticks, each within what a double holds.
   */
  lemma AcceptableExactly(req: ShortRequest)
    ensures Acceptable(req) <==>
      && req.market.isOpen && Fits(req.size, req.market.sizeDecimals, 1)
      && (req.leverage.None? || req.leverage.value >= 1)
      && (req.stopLoss.None? || Fits(req.stopLoss.value, req.market.priceDecimals, 0))
      && (req.takeProfit.None? || Fits(req.takeProfit.value, req.market.priceDecimals, 0))
  {
    WireExactly(req.size, req.market.sizeDecimals, 1);
    if req.stopLoss.Some? { WireExactly(req.stopLoss.value, req.market.priceDecimals, 0); }
    if req.takeProfit.Some? { WireExactly(req.takeProfit.value, req.market.priceDecimals, 0); }
  }

  function Numbers(frames: seq<Frame>): (s: seq<nat>)
    ensures |s| == |frames| && forall k :: 0 <= k < |s| ==> s[k] == frames[k].sn
  {
    seq(|frames|, k requires 0 <= k < |frames| => frames[k].sn)
  }

  /** Consecutive draws from the session's counters, and nothing else of them used yet. */
  ghost predicate Drawn(w: World, frames: seq<Frame>) {
    && (forall k :: 0 <= k < |frames| ==> frames[k].sn in w.pool && frames[k].sn == w.seqNo - |frames| + 1 + k)
    && (forall k :: 0 <= k < |frames| ==> frames[k].rq <= w.requestId)
    && (forall j, k :: 0 <= j < k < |frames| ==> frames[j].rq < frames[k].rq)
  }

  lemma DrawnIsOwn(w: World, frames: seq<Frame>)
    requires Drawn(w, frames)
    ensures Own(w, Numbers(frames))
  {
  }

  /** Every number awaited is that of a frame that was sent. */
  ghost predicate Filed(awaiting: map<nat, nat>, sent: nat) { forall s :: s in awaiting ==> awaiting[s] < sent }

  class PerplSession {
    var socket: bool
    var connected: bool
    var forwarding: Option<bool>
    var account: Option<int>
    var requestId: int
    var lastForwarded: int
    var seqNo: nat
    // Waits filed under the number of their frame, the waits themselves, and the calls of submit.
    var awaiting: map<nat, nat>
    var tickets: seq<Ticket>
    var calls: seq<Call>
    // Every step since the object was created.
    ghost var steps: seq<Label>
    ghost var world: World

    ghost predicate Valid()
      reads this
    {
      && Legal(FRESH, steps) && world == Run(FRESH, steps)
      && world.socket == socket && world.connected == connected && world.forwarding == forwarding && world.account == account
      && world.requestId == requestId && world.lastForwarded == lastForwarded && world.seqNo == seqNo
      && world.awaiting == awaiting && world.tickets == tickets && world.calls == calls
      && Filed(awaiting, |tickets|)
    }

    constructor ()
      ensures Valid() && Inv(world) && world == FRESH
    {
      socket, connected, forwarding, account := false, false, None, None;
      requestId, lastForwarded, seqNo := 0, 0, 0;
      awaiting, tickets, calls := map[], [], [];
      steps, world := [], FRESH;
    }

    /** One step of the protocol; the invariant survives it unless foreign frames are submitted. */
    ghost method Record(l: Label)
      requires Legal(FRESH, steps) && world == Run(FRESH, steps) && Enabled(world, l)
      modifies this`steps, this`world
      ensures Legal(FRESH, steps) && world == Run(FRESH, steps) && steps == old(steps) + [l] && world == Apply(old(world), l)
      ensures old(Inv(world)) && (l.Submit? ==> Own(old(world), l.frames)) ==> Inv(world)
    {
      if Inv(world) && (l.Submit? ==> Own(world, l.frames)) { StepKeeps(world, l); }
      var longer, v := Extend(FRESH, steps, l);
      steps, world := longer, v;
    }

    method SetSocket(up: bool)
      requires Valid()
      modifies this
      ensures Valid() && (old(Inv(world)) ==> Inv(world)) && world == Apply(old(world), Socket(up))
    {
      Record(Socket(up));
      socket := up;
      if !up { connected := false; }
    }

    method OnWalletSnapshot(rows: seq<Row>)
      requires Valid()
      modifies this
      ensures Valid() && connected && (old(Inv(world)) ==> Inv(world))
    {
      Record(Welcome);
      connected := true;
      ApplyAccounts(rows);
    }

    /** The row of the known account if there is one, else the first. */
    method FindRow(rows: seq<Row>) returns (row: Row)
      requires rows != []
      ensures row == ChosenRow(rows, account)
    {
      row := rows[0];
      var i := 0;
      while i < |rows| && !(account.Some? && rows[i].id == account)
        invariant i <= |rows|
        invariant ChosenFrom(rows, account, rows[0]) == ChosenFrom(rows[i..], account, rows[0])
      {
        i := i + 1;
      }
      if i < |rows| { row := rows[i]; }
    }

    /** The chosen row updates what it names. */
    method ApplyAccounts(rows: seq<Row>)
      requires Valid()
      modifies this
      ensures Valid() && connected == old(connected) && (old(Inv(world)) ==> Inv(world)) && world == Apply(old(world), Accounts(rows))
    {
      Record(Accounts(rows));
      if rows == [] { return; }
      var row := FindRow(rows);
      if row.id.Some? { account := row.id; }
      if row.fw.Some? { forwarding := row.fw; }
      if row.lfr.Some? { lastForwarded := row.lfr.value; }
    }

    method DrawRequestId() returns (id: int)
      requires Valid()
      modifies this
      ensures Valid() && (old(Inv(world)) ==> Inv(world)) && world == Apply(old(world), DrawRequest)
      ensures id == requestId > old(requestId) && id > lastForwarded == old(lastForwarded)
      ensures id == old(requestId) + 1 || id == lastForwarded + 1
    {
      Record(DrawRequest);
      requestId := Max(requestId, lastForwarded) + 1;
      id := requestId;
    }

    method DrawNumber() returns (sn: nat)
      requires Valid()
      modifies this
      ensures Valid() && (old(Inv(world)) ==> Inv(world)) && world == Apply(old(world), DrawSeq)
      ensures sn == seqNo == old(seqNo) + 1
    {
      Record(DrawSeq);
      seqNo := seqNo + 1;
      sn := seqNo;
    }

    /** One frame with fresh ids; the size is fixed before they are drawn. */
    method NewFrame(market: int, kind: OrderType, size: nat, leverage: int, trigger: Option<Trigger>, ghost before: seq<Frame>) returns (frame: Frame)
      requires Valid() && Drawn(world, before)
      modifies this
      ensures Valid() && (old(Inv(world)) ==> Inv(world)) && Drawn(world, before + [frame])
      ensures frame.market == market && frame.kind == kind && frame.size == size
      ensures frame.leverage == leverage && frame.trigger == trigger
    {
      var rq := DrawRequestId();
      var sn := DrawNumber();
      frame := Frame(market, kind, size, rq, sn, leverage, trigger);
    }

    /** A trigger after the frames so far, if a price is given; None when the price cannot be placed, its ids then spent. */
    method Protect(req: ShortRequest, price: Option<string>, condition: Condition, position: Option<int>, before: seq<Frame>)
      returns (frames: Option<seq<Frame>>)
      requires Valid() && Drawn(world, before) && before != []
      modifies this
      ensures Valid() && (old(Inv(world)) ==> Inv(world))
      ensures frames.Some? <==> Placeable(price, req.market.priceDecimals)
      ensures frames.Some? ==> Drawn(world, frames.value)
      ensures frames.Some? && price.None? ==> frames.value == before
      ensures frames.Some? && price.Some? ==>
        |frames.value| == |before| + 1 && frames.value[..|before|] == before
        && Protects(frames.value[|before|], before[0], price.value, req.market.priceDecimals, condition, position)
    {
      if price.None? { return Some(before); }
      var scaled := Wire(price.value, req.market.priceDecimals);
      var trigger := Trigger(if scaled.Some? then scaled.value else 0, condition, position);
      var frame := NewFrame(before[0].market, CloseShort, before[0].size, before[0].leverage, Some(trigger), before);
      if scaled.None? { return None; }
      frames := Some(before + [frame]);
    }

    /** The order that opens the short, or None when the request is refused before anything is drawn. */
    method Entry(req: ShortRequest) returns (entry: Option<Frame>)
      requires Valid()
      modifies this
      ensures Valid() && (old(Inv(world)) ==> Inv(world))
      ensures entry.Some? <==> EntryOk(req)
      ensures entry.Some? ==> IsEntry(entry.value, req) && Drawn(world, [entry.value])
    {
      var size := Wire(req.size, req.market.sizeDecimals);
      if !req.market.isOpen || size.None? || size.value == 0 || (req.leverage.Some? && req.leverage.value <= 0) { return None; }
      var leverage := if req.leverage.Some? then req.leverage.value else DEFAULT_LEVERAGE;
      var frame := NewFrame(req.market.id, OpenShort, size.value, leverage, None, []);
      assert [frame] == [] + [frame];
      entry := Some(frame);
    }

    /**
     The entry and the triggers that protect it, or None when the request cannot be placed. All frames carry
     the same size, the stop sits above and the target below, and the numbers are this session's own.
     */
    method OpenShortFrames(req: ShortRequest, position: Option<int>) returns (frames: Option<seq<Frame>>)
      requires Valid()
      modifies this
      ensures Valid() && (old(Inv(world)) ==> Inv(world))
      ensures frames.Some? <==> Acceptable(req)
      ensures frames.Some? ==> Drawn(world, frames.value)
      ensures frames.Some? ==> ShortShape(req, position, frames.value)
    {
      var entry := Entry(req);
      if entry.None? { return None; }
      frames := Protect(req, req.stopLoss, GteMark, position, [entry.value]);
      if frames.None? { return; }
      frames := Protect(req, req.takeProfit, LteMark, position, frames.value);
    }

    /** Starts a call of submit; None when it throws at once. */
    method Submit(frames: seq<nat>) returns (call: Option<nat>)
      requires Valid()
      modifies this
      ensures Valid() && (call.Some? <==> old(CanSubmit(world)))
      ensures call.None? ==> world == old(world)
      ensures call.Some? ==> call.value == |old(calls)| == |calls| - 1 && world == Apply(old(world), PerplProtocol.Submit(frames))
      ensures old(Inv(world)) && Own(old(world), frames) ==> Inv(world)
    {
      if !socket || !connected || forwarding == Some(false) || account.None? { return None; }
      Record(PerplProtocol.Submit(frames));
      call := Some(|calls|);
      calls := calls + [Call(frames, [], if frames == [] then Returned else AtFrame)];
    }

    /** An order built here and submitted here keeps every guarantee of the protocol. */
    method PlaceShort(req: ShortRequest) returns (call: Option<nat>)
      requires Valid()
      modifies this
      ensures Valid() && (old(Inv(world)) ==> Inv(world))
      ensures call.Some? ==> Acceptable(req) && call.value == |calls| - 1
    {
      var frames := OpenShortFrames(req, None);
      if frames.None? { return None; }
      DrawnIsOwn(world, frames.value);
      call := Submit(Numbers(frames.value));
    }

    /** The next frame goes out and its wait is filed under its number. */
    method SendNext(call: nat)
      requires Valid() && Enabled(world, Post(call))
      modifies this
      ensures Valid() && (old(Inv(world)) ==> Inv(world)) && world == Apply(old(world), Post(call))
    {
      Record(Post(call));
      var k := calls[call];
      var sn := k.frames[|k.results|];
      awaiting := awaiting[sn := |tickets|];
      tickets := tickets + [Ticket(call, |k.results|, sn, 0, None, false)];
      calls := calls[call := k.(phase := if socket then Waiting(|tickets| - 1) else Threw)];
    }

    /** Resolves whichever frame this status belongs to. */
    method Settle(cid: Option<nat>, code: int)
      requires Valid()
      modifies this
      ensures Valid() && (old(Inv(world)) ==> Inv(world)) && world == Apply(old(world), Ack(cid, code))
    {
      Record(Ack(cid, code));
      if cid.None? || cid.value !in awaiting { return; }
      var t := awaiting[cid.value];
      awaiting := awaiting - {cid.value};
      tickets := tickets[t := Resolve(tickets[t], Status(cid.value, code, code == 0))];
    }

    method OnTimer(t: nat)
      requires Valid() && t < |tickets| && !tickets[t].fired
      modifies this
      ensures Valid() && (old(Inv(world)) ==> Inv(world)) && world == Apply(old(world), Timer(t))
    {
      Record(Timer(t));
      var k := tickets[t].(fired := true);
      tickets := tickets[t := k];
      if k.sn !in awaiting { return; }
      awaiting := awaiting - {k.sn};
      tickets := tickets[t := Resolve(k, Status(k.sn, TIMED_OUT, false))];
    }

    /** The call reads the status of its frame and goes on, or stops at a refusal. */
    method ResumeCall(call: nat)
      requires Valid() && Enabled(world, Resume(call))
      modifies this
      ensures Valid() && (old(Inv(world)) ==> Inv(world)) && world == Apply(old(world), Resume(call))
    {
      Record(Resume(call));
      var k := calls[call];
      var status := tickets[k.phase.ticket].outcome.value;
      var results := k.results + [status];
      calls := calls[call := k.(results := results, phase := if !status.accepted || |results| == |k.frames| then Returned else AtFrame)];
    }
  }

  ghost predicate IsEntry(f: Frame, req: ShortRequest) {
    && f.kind.OpenShort? && f.trigger.None? && f.market == req.market.id
    && Scale(req.size, req.market.sizeDecimals) == Ok(f.size) && 0 < f.size <= MAX_SAFE_INTEGER
    // Leverage is in hundredths: without one asked for, once.
    && f.leverage == (if req.leverage.Some? then req.leverage.value else 100) && f.leverage > 0
  }

  /** A closing order of the entry's own size, market and leverage, triggered at exactly the price asked for. */
  ghost predicate Protects(f: Frame, entry: Frame, price: string, decimals: nat, condition: Condition, position: Option<int>) {
    && f.kind.CloseShort? && f.market == entry.market && f.size == entry.size && f.leverage == entry.leverage
    && f.trigger.Some? && f.trigger.value.condition == condition && f.trigger.value.position == position
    && Scale(price, decimals) == Ok(f.trigger.value.price) && f.trigger.value.price <= MAX_SAFE_INTEGER
  }

  /** What the frames of a short ask for: the entry, then the stop if any, then the target if any. */
  ghost predicate ShortShape(req: ShortRequest, position: Option<int>, frames: seq<Frame>) {
    var stops, targets := if req.stopLoss.Some? then 1 else 0, if req.takeProfit.Some? then 1 else 0;
    && |frames| == 1 + stops + targets && IsEntry(frames[0], req)
    && (req.stopLoss.Some? ==> Protects(frames[1], frames[0], req.stopLoss.value, req.market.priceDecimals, GteMark, position))
    && (req.takeProfit.Some? ==> Protects(frames[1 + stops], frames[0], req.takeProfit.value, req.market.priceDecimals, LteMark, position))
  }
}
