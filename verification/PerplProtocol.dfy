// The trading session as a protocol: order frames go out one at a time, each waits for its acknowledgement
// or for its timer, and calls, acknowledgements and timers interleave freely.
module PerplProtocol {
  import opened Options

  /** What a frame's wait came to. TIMED_OUT is the session's own code, never a success. */
  datatype Status = Status(sn: nat, code: int, accepted: bool)

  const TIMED_OUT := -1

  /** One frame that was sent. `resolved` counts how often its wait was ended; `fired` says its timer ran. */
  datatype Ticket = Ticket(call: nat, index: nat, sn: nat, resolved: nat, outcome: Option<Status>, fired: bool)

  datatype Phase = AtFrame | Waiting(ticket: nat) | Returned | Threw

  /** One call of submit, by the sequence numbers of its frames. */
  datatype Call = Call(frames: seq<nat>, results: seq<Status>, phase: Phase)

  /** One entry of an account frame: what it names of the account, of forwarding, and the last request forwarded. */
  datatype Row = Row(id: Option<int>, fw: Option<bool>, lfr: Option<int>)

  /**
   `pool` holds the sequence numbers drawn and not submitted yet, `issued` the request ids in the order
   they were drawn, `reported` every last-forwarded id the venue sent.
   */
  datatype World = World(
    socket: bool, connected: bool, forwarding: Option<bool>, account: Option<int>,
    requestId: int, lastForwarded: int, seqNo: nat,
    awaiting: map<nat, nat>, tickets: seq<Ticket>, calls: seq<Call>,
    pool: set<nat>, issued: seq<int>, reported: seq<int>)

  const FRESH := World(false, false, None, None, 0, 0, 0, map[], [], [], {}, [], [])

  datatype Label =
    | Socket(up: bool) | Welcome | Accounts(rows: seq<Row>)
    | DrawRequest | DrawSeq
    | Submit(frames: seq<nat>) | Post(call: nat) | Ack(cid: Option<nat>, code: int) | Timer(ticket: nat) | Resume(call: nat)

  predicate CanSubmit(w: World) { w.socket && w.connected && w.forwarding != Some(false) && w.account.Some? }

  function Max(a: int, b: int): int { if a < b then b else a }

  function NextRequestId(w: World): int { Max(w.requestId, w.lastForwarded) + 1 }

  /** The row of the account already known, or else the first. */
  function ChosenRow(rows: seq<Row>, account: Option<int>): Row
    requires rows != []
  {
    ChosenFrom(rows, account, rows[0])
  }

  function ChosenFrom(rows: seq<Row>, account: Option<int>, otherwise: Row): Row {
    if rows == [] then otherwise
    else if account.Some? && rows[0].id == account then rows[0]
    else ChosenFrom(rows[1..], account, otherwise)
  }

  function Or<T>(x: Option<T>, y: Option<T>): Option<T> { if x.Some? then x else y }

  function ApplyRow(w: World, r: Row): World {
    w.(account := Or(r.id, w.account), forwarding := Or(r.fw, w.forwarding),
       lastForwarded := if r.lfr.Some? then r.lfr.value else w.lastForwarded,
       reported := if r.lfr.Some? then w.reported + [r.lfr.value] else w.reported)
  }

  predicate Enabled(w: World, l: Label) {
    match l
    case Submit(_) => CanSubmit(w)
    case Post(c) => c < |w.calls| && w.calls[c].phase.AtFrame? && |w.calls[c].results| < |w.calls[c].frames|
    case Timer(t) => t < |w.tickets| && !w.tickets[t].fired
    case Resume(c) => c < |w.calls| && w.calls[c].phase.Waiting? && w.calls[c].phase.ticket < |w.tickets|
                      && w.tickets[w.calls[c].phase.ticket].outcome.Some?
    case _ => true
  }

  /** Ends a wait; only the first end has an effect on whoever waits. */
  function Resolve(t: Ticket, s: Status): Ticket {
    t.(resolved := t.resolved + 1, outcome := if t.outcome.None? then Some(s) else t.outcome)
  }

  function AfterResult(c: Call, s: Status): Call {
    var results := c.results + [s];
    c.(results := results, phase := if !s.accepted || |results| == |c.frames| then Returned else AtFrame)
  }

  /** An acknowledgement ends the wait filed under its number, if there is one. */
  function Settled(w: World, cid: Option<nat>, code: int): World {
    if cid.None? || cid.value !in w.awaiting || w.awaiting[cid.value] >= |w.tickets| then w
    else
      var t := w.awaiting[cid.value];
      w.(awaiting := w.awaiting - {cid.value}, tickets := w.tickets[t := Resolve(w.tickets[t], Status(cid.value, code, code == 0))])
  }

  /** A timer ends its own wait, provided something is still filed under its number. */
  function Expired(w: World, t: nat): World
    requires t < |w.tickets|
  {
    var k := w.tickets[t].(fired := true);
    if k.sn !in w.awaiting then w.(tickets := w.tickets[t := k])
    else w.(awaiting := w.awaiting - {k.sn}, tickets := w.tickets[t := Resolve(k, Status(k.sn, TIMED_OUT, false))])
  }

  /** The next frame of a call goes out; without a socket the send throws after the wait was filed. */
  function Posted(w: World, c: nat): World
    requires Enabled(w, Post(c))
  {
    var k := w.calls[c];
    var sn := k.frames[|k.results|];
    w.(awaiting := w.awaiting[sn := |w.tickets|],
       tickets := w.tickets + [Ticket(c, |k.results|, sn, 0, None, false)],
       calls := w.calls[c := k.(phase := if w.socket then Waiting(|w.tickets|) else Threw)])
  }

  function Apply(w: World, l: Label): World
    requires Enabled(w, l)
  {
    match l
    case Socket(up) => w.(socket := up, connected := if up then w.connected else false)
    case Welcome => w.(connected := true)
    case Accounts(rows) => if rows == [] then w else ApplyRow(w, ChosenRow(rows, w.account))
    case DrawRequest => w.(requestId := NextRequestId(w), issued := w.issued + [NextRequestId(w)])
    case DrawSeq => w.(seqNo := w.seqNo + 1, pool := w.pool + {w.seqNo + 1})
    case Submit(frames) =>
      w.(calls := w.calls + [Call(frames, [], if frames == [] then Returned else AtFrame)],
         pool := w.pool - (set k | 0 <= k < |frames| :: frames[k]))
    case Post(c) => Posted(w, c)
    case Ack(cid, code) => Settled(w, cid, code)
    case Timer(t) => Expired(w, t)
    case Resume(c) =>
      w.(calls := w.calls[c := AfterResult(w.calls[c], w.tickets[w.calls[c].phase.ticket].outcome.value)])
  }

  ghost predicate Legal(w: World, run: seq<Label>)
    decreases |run|
  {
    run != [] ==> Enabled(w, run[0]) && Legal(Apply(w, run[0]), run[1..])
  }

  ghost function Run(w: World, run: seq<Label>): World
    requires Legal(w, run)
    decreases |run|
  {
    if run == [] then w else Run(Apply(w, run[0]), run[1..])
  }

  /** Frames built from the session's own counter: distinct numbers, each drawn and not submitted before. */
  ghost predicate Own(w: World, frames: seq<nat>) {
    && (forall k :: 0 <= k < |frames| ==> frames[k] in w.pool)
    && (forall j, k :: 0 <= j < k < |frames| ==> frames[j] != frames[k])
  }

  /** Every caller submits frames it built from the session's counter. */
  ghost predicate Honest(w: World, run: seq<Label>)
    requires Legal(w, run)
    decreases |run|
  {
    run != [] ==> (run[0].Submit? ==> Own(w, run[0].frames)) && Honest(Apply(w, run[0]), run[1..])
  }

  // ---- The invariant ----

  /** How many frames of a call have been sent. */
  function Progress(c: Call): nat { |c.results| + (if c.phase.Waiting? || c.phase.Threw? then 1 else 0) }

  ghost predicate CallOk(c: Call) {
    && |c.results| <= |c.frames|
    && (forall k :: 0 <= k < |c.results| ==> c.results[k].sn == c.frames[k])
    && (forall k :: 0 <= k < |c.results| - 1 ==> c.results[k].accepted)
    && (!c.phase.Returned? ==> |c.results| < |c.frames| && (c.results != [] ==> c.results[|c.results| - 1].accepted))
    && (c.phase.Returned? ==> |c.results| == |c.frames| || (c.results != [] && !c.results[|c.results| - 1].accepted))
  }

  ghost predicate TicketOk(w: World, t: nat)
    requires t < |w.tickets|
  {
    var k := w.tickets[t];
    && k.call < |w.calls| && k.index < Progress(w.calls[k.call]) && k.index < |w.calls[k.call].frames|
    && w.calls[k.call].frames[k.index] == k.sn
    && k.resolved <= 1 && (k.outcome.Some? <==> k.resolved == 1) && (k.outcome.Some? ==> k.outcome.value.sn == k.sn)
    && (k.resolved == 0 <==> k.sn in w.awaiting && w.awaiting[k.sn] == t)
    && (k.fired ==> k.resolved == 1)
  }

  ghost predicate WaitOk(w: World, c: nat)
    requires c < |w.calls|
  {
    w.calls[c].phase.Waiting? ==>
      var t := w.calls[c].phase.ticket;
      t < |w.tickets| && w.tickets[t].call == c && w.tickets[t].index == |w.calls[c].results|
  }

  /** No sequence number has two uses. */
  ghost predicate Apart(w: World) {
    && (forall c, j, k :: 0 <= c < |w.calls| && 0 <= j < k < |w.calls[c].frames| ==> w.calls[c].frames[j] != w.calls[c].frames[k])
    && (forall c, d, j, k :: 0 <= c < d < |w.calls| && 0 <= j < |w.calls[c].frames| && 0 <= k < |w.calls[d].frames| ==>
          w.calls[c].frames[j] != w.calls[d].frames[k])
    && (forall c, k :: 0 <= c < |w.calls| && 0 <= k < |w.calls[c].frames| ==> w.calls[c].frames[k] <= w.seqNo && w.calls[c].frames[k] !in w.pool)
    && (forall s :: s in w.pool ==> s <= w.seqNo)
    && (forall s, t :: 0 <= s < t < |w.tickets| ==> w.tickets[s].sn != w.tickets[t].sn)
  }

  ghost predicate Inv(w: World) {
    && Apart(w)
    && (forall c :: 0 <= c < |w.calls| ==> CallOk(w.calls[c]) && WaitOk(w, c))
    && (forall t :: 0 <= t < |w.tickets| ==> TicketOk(w, t))
    && (forall s :: s in w.awaiting ==> w.awaiting[s] < |w.tickets| && w.tickets[w.awaiting[s]].sn == s)
  }

  /** The next frame's number has never been sent. */
  lemma NextIsNew(w: World, c: nat)
    requires Inv(w) && Enabled(w, Post(c))
    ensures forall t :: 0 <= t < |w.tickets| ==> w.tickets[t].sn != w.calls[c].frames[|w.calls[c].results|]
  {
    var sn := w.calls[c].frames[|w.calls[c].results|];
    forall t | 0 <= t < |w.tickets| ensures w.tickets[t].sn != sn {
      var k := w.tickets[t];
      assert TicketOk(w, t);
      if k.call == c {
        assert k.index < |w.calls[c].results|;
      }
    }
  }

  lemma PostKeepsApart(w: World, c: nat)
    requires Inv(w) && Enabled(w, Post(c))
    ensures Apart(Posted(w, c))
  {
    var v := Posted(w, c);
    NextIsNew(w, c);
    assert CallOk(w.calls[c]);
    assert forall d :: 0 <= d < |w.calls| ==> v.calls[d].frames == w.calls[d].frames;
  }

  lemma PostKeepsTickets(w: World, c: nat)
    requires Inv(w) && Enabled(w, Post(c))
    ensures var v := Posted(w, c); forall t :: 0 <= t < |v.tickets| ==> TicketOk(v, t)
  {
    var v := Posted(w, c);
    NextIsNew(w, c);
    forall t | 0 <= t < |v.tickets| ensures TicketOk(v, t) {
      if t < |w.tickets| {
        assert TicketOk(w, t);
      }
    }
  }

  lemma PostKeepsCalls(w: World, c: nat)
    requires Inv(w) && Enabled(w, Post(c))
    ensures var v := Posted(w, c); forall d :: 0 <= d < |v.calls| ==> CallOk(v.calls[d]) && WaitOk(v, d)
  {
    var v := Posted(w, c);
    forall d | 0 <= d < |v.calls| ensures CallOk(v.calls[d]) && WaitOk(v, d) {
      assert CallOk(w.calls[d]) && WaitOk(w, d);
    }
  }

  lemma PostKeeps(w: World, c: nat)
    requires Inv(w) && Enabled(w, Post(c))
    ensures Inv(Posted(w, c))
  {
    PostKeepsApart(w, c);
    PostKeepsTickets(w, c);
    PostKeepsCalls(w, c);
    NextIsNew(w, c);
  }

  /** Ending the wait of ticket t, and only that one. */
  ghost predicate Ends(w: World, v: World, t: nat) {
    && t < |w.tickets| && w.tickets[t].resolved == 0 && w.tickets[t].sn in w.awaiting
    && v.calls == w.calls && v.pool == w.pool && v.seqNo == w.seqNo
    && v.awaiting == w.awaiting - {w.tickets[t].sn}
    && |v.tickets| == |w.tickets|
    && (forall u :: 0 <= u < |w.tickets| && u != t ==> v.tickets[u] == w.tickets[u])
    && v.tickets[t].call == w.tickets[t].call && v.tickets[t].index == w.tickets[t].index && v.tickets[t].sn == w.tickets[t].sn
    && v.tickets[t].resolved == 1 && v.tickets[t].outcome.Some? && v.tickets[t].outcome.value.sn == w.tickets[t].sn
  }

  lemma EndKeeps(w: World, v: World, t: nat)
    requires Inv(w) && Ends(w, v, t)
    ensures Inv(v)
  {
    assert TicketOk(w, t);
    forall u | 0 <= u < |v.tickets| ensures TicketOk(v, u) {
      assert TicketOk(w, u);
    }
    forall c | 0 <= c < |v.calls| ensures CallOk(v.calls[c]) && WaitOk(v, c) {
      assert CallOk(w.calls[c]) && WaitOk(w, c);
    }
  }

  lemma AckKeeps(w: World, cid: Option<nat>, code: int)
    requires Inv(w)
    ensures Inv(Settled(w, cid, code))
  {
    if cid.Some? && cid.value in w.awaiting {
      var t := w.awaiting[cid.value];
      assert TicketOk(w, t);
      EndKeeps(w, Settled(w, cid, code), t);
    }
  }

  lemma TimerKeeps(w: World, t: nat)
    requires Inv(w) && Enabled(w, Timer(t))
    ensures Inv(Expired(w, t))
  {
    var v := Expired(w, t);
    assert TicketOk(w, t);
    if w.tickets[t].sn in w.awaiting {
      var u := w.awaiting[w.tickets[t].sn];
      assert u == t;
      EndKeeps(w, v, t);
    } else {
      FiredKeeps(w, v, t);
    }
  }

  /** A timer that finds its wait over changes nothing else. */
  lemma FiredKeeps(w: World, v: World, t: nat)
    requires Inv(w) && t < |w.tickets| && w.tickets[t].resolved == 1
    requires v == w.(tickets := w.tickets[t := w.tickets[t].(fired := true)])
    ensures Inv(v)
  {
    forall u | 0 <= u < |v.tickets| ensures TicketOk(v, u) {
      assert TicketOk(w, u);
    }
    forall c | 0 <= c < |v.calls| ensures CallOk(v.calls[c]) && WaitOk(v, c) {
      assert CallOk(w.calls[c]) && WaitOk(w, c);
    }
  }

  /** One more result, and the frames and what was sent of them as before. */
  lemma ResultAdded(w: World, c: nat)
    requires Inv(w) && Enabled(w, Resume(c))
    ensures var s := w.tickets[w.calls[c].phase.ticket].outcome.value;
            var after := AfterResult(w.calls[c], s);
            CallOk(after) && !after.phase.Waiting? && after.frames == w.calls[c].frames && Progress(after) == Progress(w.calls[c])
  {
    assert CallOk(w.calls[c]) && WaitOk(w, c) && TicketOk(w, w.calls[c].phase.ticket);
  }

  lemma ResumeKeeps(w: World, c: nat)
    requires Inv(w) && Enabled(w, Resume(c))
    ensures Inv(Apply(w, Resume(c)))
  {
    var v := Apply(w, Resume(c));
    ResultAdded(w, c);
    CallReplaced(w, v.calls[c], c);
  }

  lemma CallReplaced(w: World, k: Call, c: nat)
    requires Inv(w) && c < |w.calls| && CallOk(k) && !k.phase.Waiting?
    requires k.frames == w.calls[c].frames && Progress(k) == Progress(w.calls[c])
    ensures Inv(w.(calls := w.calls[c := k]))
  {
    var v := w.(calls := w.calls[c := k]);
    assert forall d :: 0 <= d < |w.calls| ==> v.calls[d].frames == w.calls[d].frames && Progress(v.calls[d]) == Progress(w.calls[d]);
    forall d | 0 <= d < |v.calls| ensures CallOk(v.calls[d]) && WaitOk(v, d) {
      assert CallOk(w.calls[d]) && WaitOk(w, d);
    }
    forall u | 0 <= u < |v.tickets| ensures TicketOk(v, u) {
      assert TicketOk(w, u);
    }
  }

  lemma SubmitKeeps(w: World, frames: seq<nat>)
    requires Inv(w) && Enabled(w, Submit(frames)) && Own(w, frames)
    ensures Inv(Apply(w, Submit(frames)))
  {
    var v := Apply(w, Submit(frames));
    forall k | 0 <= k < |frames| ensures frames[k] !in v.pool && frames[k] <= w.seqNo {
      assert frames[k] in w.pool;
    }
    forall u | 0 <= u < |v.tickets| ensures TicketOk(v, u) {
      assert TicketOk(w, u);
    }
    forall c | 0 <= c < |v.calls| ensures CallOk(v.calls[c]) && WaitOk(v, c) {
      if c < |w.calls| { assert CallOk(w.calls[c]) && WaitOk(w, c); }
    }
  }

  lemma CounterKeeps(w: World, l: Label)
    requires Inv(w) && (l.Socket? || l.Welcome? || l.Accounts? || l.DrawRequest? || l.DrawSeq?)
    ensures Inv(Apply(w, l))
  {
    var v := Apply(w, l);
    assert v.calls == w.calls && v.tickets == w.tickets && v.awaiting == w.awaiting;
    forall u | 0 <= u < |v.tickets| ensures TicketOk(v, u) {
      assert TicketOk(w, u);
    }
    forall c | 0 <= c < |v.calls| ensures CallOk(v.calls[c]) && WaitOk(v, c) {
      assert CallOk(w.calls[c]) && WaitOk(w, c);
    }
  }

  lemma StepKeeps(w: World, l: Label)
    requires Inv(w) && Enabled(w, l) && (l.Submit? ==> Own(w, l.frames))
    ensures Inv(Apply(w, l))
  {
    match l
    case Submit(frames) => SubmitKeeps(w, frames);
    case Post(c) => PostKeeps(w, c);
    case Ack(cid, code) => AckKeeps(w, cid, code);
    case Timer(t) => TimerKeeps(w, t);
    case Resume(c) => ResumeKeeps(w, c);
    case _ => CounterKeeps(w, l);
  }

  lemma {:induction false} RunKeeps(w: World, run: seq<Label>)
    requires Inv(w) && Legal(w, run) && Honest(w, run)
    ensures Inv(Run(w, run))
    decreases |run|
  {
    if run != [] {
      StepKeeps(w, run[0]);
      RunKeeps(Apply(w, run[0]), run[1..]);
    }
  }
}
