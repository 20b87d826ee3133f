/** What a caller of the trading session can rely on, over every interleaving, and where that ends. */
module PerplGuarantees {
  import opened Options
  import opened PerplProtocol

  lemma {:induction false} RunConcat(w: World, first: seq<Label>, second: seq<Label>)
    requires Legal(w, first) && Legal(Run(w, first), second)
    ensures Legal(w, first + second) && Run(w, first + second) == Run(Run(w, first), second)
    decreases |first|
  {
    if first == [] {
      assert first + second == second;
    } else {
      assert (first + second)[0] == first[0] && (first + second)[1..] == first[1..] + second;
      RunConcat(Apply(w, first[0]), first[1..], second);
    }
  }

  lemma Extend(w: World, run: seq<Label>, l: Label) returns (longer: seq<Label>, v: World)
    requires Legal(w, run) && Enabled(Run(w, run), l)
    ensures longer == run + [l] && Legal(w, longer) && v == Run(w, longer) == Apply(Run(w, run), l)
  {
    assert [l][1..] == [];
    RunConcat(w, run, [l]);
    longer, v := run + [l], Apply(Run(w, run), l);
  }

  // ---- Every wait ends once ----

  /** A frame's wait is never ended twice, and has been ended once its timer ran; then nothing is filed under its number. */
  lemma SettledExactlyOnce(run: seq<Label>, t: nat)
    requires Legal(FRESH, run) && Honest(FRESH, run) && t < |Run(FRESH, run).tickets|
    ensures var v := Run(FRESH, run);
            && v.tickets[t].resolved <= 1 && (v.tickets[t].fired ==> v.tickets[t].resolved == 1)
            && (v.tickets[t].resolved == 1 <==> v.tickets[t].outcome.Some?)
            && (v.tickets[t].resolved == 0 <==> v.tickets[t].sn in v.awaiting)
  {
    RunKeeps(FRESH, run);
    var v := Run(FRESH, run);
    assert TicketOk(v, t);
    if v.tickets[t].sn in v.awaiting {
      var u := v.awaiting[v.tickets[t].sn];
      assert u == t;
    }
  }

  /** Once every timer has run, no frame is awaited. */
  lemma AwaitingEmpties(run: seq<Label>)
    requires Legal(FRESH, run) && Honest(FRESH, run)
    requires forall t :: 0 <= t < |Run(FRESH, run).tickets| ==> Run(FRESH, run).tickets[t].fired
    ensures Run(FRESH, run).awaiting == map[]
  {
    RunKeeps(FRESH, run);
    var v := Run(FRESH, run);
    forall s ensures s !in v.awaiting {
      AwaitedHasTimer(v, s);
    }
  }

  lemma AwaitedHasTimer(w: World, s: nat)
    requires Inv(w)
    ensures s in w.awaiting ==> w.awaiting[s] < |w.tickets| && !w.tickets[w.awaiting[s]].fired
  {
    if s in w.awaiting {
      assert TicketOk(w, w.awaiting[s]);
    }
  }

  /**
   What a call has collected is one result per frame for a prefix of its frames, every result but the last
   accepted. A call that returned stopped at its first refusal or at its last frame.
   */
  lemma ResultsMatchPrefix(run: seq<Label>, c: nat)
    requires Legal(FRESH, run) && Honest(FRESH, run) && c < |Run(FRESH, run).calls|
    ensures CallOk(Run(FRESH, run).calls[c])
  {
    RunKeeps(FRESH, run);
  }

  /** The call moved on: it is over, or has one more result and another frame to send. */
  ghost predicate MovedOn(w: World, v: World, c: nat) {
    && c < |w.calls| == |v.calls|
    && (v.calls[c].phase.Returned? || v.calls[c].phase.Threw? || (v.calls[c].phase.AtFrame? && |v.calls[c].results| == |w.calls[c].results| + 1))
  }

  ghost predicate OnlyTime(run: seq<Label>) { forall l :: l in run ==> l.Post? || l.Timer? || l.Resume? }

  lemma TimerEndsWait(w: World, c: nat) returns (run: seq<Label>)
    requires Inv(w) && c < |w.calls| && w.calls[c].phase.Waiting?
    ensures Legal(w, run) && OnlyTime(run) && |run| <= 2 && MovedOn(w, Run(w, run), c)
  {
    assert CallOk(w.calls[c]) && WaitOk(w, c);
    var t := w.calls[c].phase.ticket;
    assert TicketOk(w, t);
    var v := w;
    run := [];
    if w.tickets[t].outcome.None? {
      run, v := Extend(w, run, Timer(t));
    }
    run, v := Extend(w, run, Resume(c));
  }

  /** Whatever state an open call is in, running its timer is enough to move it on: no call waits forever. */
  lemma TimeEndsEveryCall(w: World, c: nat) returns (run: seq<Label>)
    requires Inv(w) && c < |w.calls| && !w.calls[c].phase.Returned? && !w.calls[c].phase.Threw?
    ensures Legal(w, run) && OnlyTime(run) && |run| <= 3 && MovedOn(w, Run(w, run), c)
  {
    assert CallOk(w.calls[c]);
    if w.calls[c].phase.Waiting? {
      run := TimerEndsWait(w, c);
    } else {
      PostKeeps(w, c);
      var first, v := Extend(w, [], Post(c));
      run := first;
      if v.calls[c].phase.Waiting? {
        var rest := TimerEndsWait(v, c);
        RunConcat(w, first, rest);
        run := first + rest;
      }
    }
  }

  // ---- Accepted means acknowledged ----

  lemma {:induction false} OutcomeStays(w: World, run: seq<Label>, t: nat)
    requires Legal(w, run) && t < |w.tickets|
    ensures var v := Run(w, run);
            t < |v.tickets| && v.tickets[t].sn == w.tickets[t].sn && (w.tickets[t].outcome.Some? ==> v.tickets[t].outcome == w.tickets[t].outcome)
    decreases |run|
  {
    if run != [] {
      var v := Apply(w, run[0]);
      assert t < |v.tickets| && v.tickets[t].sn == w.tickets[t].sn && (w.tickets[t].outcome.Some? ==> v.tickets[t].outcome == w.tickets[t].outcome);
      OutcomeStays(v, run[1..], t);
    }
  }

  ghost predicate Acknowledged(run: seq<Label>, sn: nat) { Ack(Some(sn), 0) in run }

  /** No frame is reported accepted unless the venue acknowledged that very number with code 0. */
  lemma {:induction false} AcceptedWasAcknowledged(w: World, run: seq<Label>, t: nat)
    requires Legal(w, run) && t < |Run(w, run).tickets|
    requires t < |w.tickets| ==> w.tickets[t].outcome.None?
    requires forall s :: s in w.awaiting ==> w.awaiting[s] < |w.tickets| && w.tickets[w.awaiting[s]].sn == s
    requires Run(w, run).tickets[t].outcome.Some? && Run(w, run).tickets[t].outcome.value.accepted
    ensures Acknowledged(run, Run(w, run).tickets[t].sn)
    decreases |run|
  {
    if run != [] {
      var v := Apply(w, run[0]);
      FiledUnderOwnNumber(w, run[0]);
      if t < |v.tickets| && v.tickets[t].outcome.Some? {
        OutcomeStays(v, run[1..], t);
        assert run[0] == Ack(Some(v.tickets[t].sn), 0);
      } else {
        AcceptedWasAcknowledged(v, run[1..], t);
      }
    }
  }

  lemma FiledUnderOwnNumber(w: World, l: Label)
    requires Enabled(w, l)
    requires forall s :: s in w.awaiting ==> w.awaiting[s] < |w.tickets| && w.tickets[w.awaiting[s]].sn == s
    ensures var v := Apply(w, l); forall s :: s in v.awaiting ==> v.awaiting[s] < |v.tickets| && v.tickets[v.awaiting[s]].sn == s
  {
  }

  // ---- Where it ends ----

  /** A wait whose timer has run with nothing filed under it never ends. */
  ghost predicate Stuck(w: World, t: nat) {
    t < |w.tickets| && w.tickets[t].fired && w.tickets[t].outcome.None? && (forall s :: s in w.awaiting ==> w.awaiting[s] != t)
  }

  /** No later event ends it: the call that waits for it is never resumed. */
  lemma {:induction false} StuckForever(w: World, run: seq<Label>, t: nat)
    requires Legal(w, run) && Stuck(w, t)
    ensures Stuck(Run(w, run), t)
    ensures forall c :: 0 <= c < |Run(w, run).calls| && Run(w, run).calls[c].phase == Waiting(t) ==> !Enabled(Run(w, run), Resume(c))
    decreases |run|
  {
    if run != [] {
      StuckForever(Apply(w, run[0]), run[1..], t);
    }
  }

  /** An open session that knows its account, and has submitted nothing. */
  ghost predicate ReadyToSubmit(w: World) { CanSubmit(w) && w.calls == [] && w.tickets == [] && w.awaiting == map[] }

  lemma OpenSession() returns (run: seq<Label>)
    ensures Legal(FRESH, run) && ReadyToSubmit(Run(FRESH, run))
  {
    var v;
    var row := Row(Some(1), Some(true), None);
    run, v := Extend(FRESH, [], Socket(true));
    run, v := Extend(FRESH, run, Welcome);
    assert v == FRESH.(socket := true, connected := true);
    assert ChosenFrom([row][1..], None, row) == row;
    assert ChosenRow([row], None) == ChosenFrom([row], None, row) == row;
    run, v := Extend(FRESH, run, Accounts([row]));
  }

  /** Two calls that submit one number: the second takes over the entry, and the first hangs. */
  lemma SharedNumberHangs(sn: nat) returns (run: seq<Label>)
    ensures Legal(FRESH, run)
    ensures var v := Run(FRESH, run); |v.calls| == 2 && v.calls[0].phase == Waiting(0) && Stuck(v, 0)
  {
    var v;
    run := OpenSession();
    run, v := Extend(FRESH, run, Submit([sn]));
    run, v := Extend(FRESH, run, Post(0));
    run, v := Extend(FRESH, run, Submit([sn]));
    run, v := Extend(FRESH, run, Post(1));
    run, v := Extend(FRESH, run, Ack(Some(sn), 0));
    run, v := Extend(FRESH, run, Timer(0));
  }

  /** No wait of any run is stuck, whether or not callers may submit numbers of their own making. */
  ghost predicate NeverStuck(foreign: bool) {
    forall run: seq<Label>, t: nat :: Legal(FRESH, run) && (foreign || Honest(FRESH, run)) ==> !Stuck(Run(FRESH, run), t)
  }

  /** Every wait ends exactly because callers number their frames from the session's counter, as all of them do. */
  lemma NeverStuckExactly(foreign: bool)
    ensures NeverStuck(foreign) <==> !foreign
  {
    if foreign {
      var run := SharedNumberHangs(1);
    } else {
      forall run: seq<Label>, t: nat | Legal(FRESH, run) && Honest(FRESH, run) ensures !Stuck(Run(FRESH, run), t) {
        if t < |Run(FRESH, run).tickets| { SettledExactlyOnce(run, t); }
      }
    }
  }

  // ---- Calls that throw after an acceptance ----

  /** The socket is gone when a later frame of the call is sent. The loop checks nothing else. */
  ghost predicate Drops(w: World, l: Label, c: nat) { l == Post(c) && !w.socket && c < |w.calls| && w.calls[c].results != [] }

  ghost predicate DropsIn(w: World, run: seq<Label>, c: nat)
    requires Legal(w, run)
    decreases |run|
  {
    run != [] && (Drops(w, run[0], c) || DropsIn(Apply(w, run[0]), run[1..], c))
  }

  /** The caller gets an exception although the venue took at least one frame. */
  ghost predicate ThrewAway(w: World, c: nat) {
    && c < |w.calls| && w.calls[c].phase.Threw? && w.calls[c].results != []
    && forall k :: 0 <= k < |w.calls[c].results| ==> w.calls[c].results[k].accepted
  }

  /** A call still open, or thrown out of, has been refused nothing. */
  ghost predicate NoRefusal(w: World, c: nat) {
    c < |w.calls| && !w.calls[c].phase.Returned? ==> forall k :: 0 <= k < |w.calls[c].results| ==> w.calls[c].results[k].accepted
  }

  lemma ThrowStep(w: World, l: Label, c: nat)
    requires Enabled(w, l) && NoRefusal(w, c)
    ensures NoRefusal(Apply(w, l), c) && (ThrewAway(Apply(w, l), c) <==> ThrewAway(w, c) || Drops(w, l, c))
  {
  }

  lemma {:induction false} ThrowsOverRun(w: World, run: seq<Label>, c: nat)
    requires Legal(w, run) && NoRefusal(w, c)
    ensures NoRefusal(Run(w, run), c) && (ThrewAway(Run(w, run), c) <==> ThrewAway(w, c) || DropsIn(w, run, c))
    decreases |run|
  {
    if run != [] {
      ThrowStep(w, run[0], c);
      ThrowsOverRun(Apply(w, run[0]), run[1..], c);
    }
  }

  /**
   Over every run and whatever the callers submit: a call ends in an exception with frames of it accepted
   exactly when the socket was gone at the sending of a later frame.
   */
  lemma ThrowsExactly(run: seq<Label>, c: nat)
    requires Legal(FRESH, run)
    ensures var v := Run(FRESH, run);
            (c < |v.calls| && v.calls[c].phase.Threw? && v.calls[c].results != [] <==> DropsIn(FRESH, run, c))
            && (DropsIn(FRESH, run, c) ==> ThrewAway(v, c))
  {
    ThrowsOverRun(FRESH, run, c);
  }

  /** It happens: the socket drops after the first of two frames was accepted. */
  lemma AcceptedThenThrown(a: nat, b: nat) returns (run: seq<Label>)
    ensures Legal(FRESH, run)
    ensures var v := Run(FRESH, run);
            |v.calls| == 1 && v.calls[0].phase.Threw? && v.calls[0].results == [Status(a, 0, true)]
  {
    var v;
    run := OpenSession();
    run, v := Extend(FRESH, run, Submit([a, b]));
    run, v := Extend(FRESH, run, Post(0));
    run, v := Extend(FRESH, run, Ack(Some(a), 0));
    run, v := Extend(FRESH, run, Resume(0));
    run, v := Extend(FRESH, run, Socket(false));
    run, v := Extend(FRESH, run, Post(0));
  }

  // ---- When a call may start ----

  /** What the session has been told: of its socket, of its sign-in, and in account frames of forwarding and the account. */
  datatype Told = Told(up: bool, signedIn: bool, forwarding: Option<bool>, account: Option<int>)

  /** r is the row a frame is read by: the first one of the known account, or else the first of all. */
  ghost predicate ReadBy(rows: seq<Row>, account: Option<int>, r: Row) {
    if account.Some? && exists k :: 0 <= k < |rows| && rows[k].id == account
    then exists k :: 0 <= k < |rows| && rows[k] == r && r.id == account && forall j :: 0 <= j < k ==> rows[j].id != account
    else rows != [] && r == rows[0]
  }

  ghost predicate Hears(t: Told, l: Label, u: Told) {
    match l
    case Socket(up) => u == t.(up := up, signedIn := up && t.signedIn)
    case Welcome => u == t.(signedIn := true)
    case Accounts(rows) =>
      if rows == [] then u == t
      else exists r: Row :: ReadBy(rows, t.account, r)
             && u == t.(account := if r.id.Some? then r.id else t.account, forwarding := if r.fw.Some? then r.fw else t.forwarding)
    case _ => u == t
  }

  /** The session's whole knowledge is what it was told last of each. */
  ghost predicate Knows(w: World, t: Told) {
    w.socket == t.up && w.connected == t.signedIn && w.forwarding == t.forwarding && w.account == t.account
  }

  ghost predicate HearsAll(t: Told, run: seq<Label>, u: Told)
    decreases |run|
  {
    if run == [] then u == t else exists m: Told :: Hears(t, run[0], m) && HearsAll(m, run[1..], u)
  }

  lemma {:induction false} ChosenIsReadBy(rows: seq<Row>, account: Option<int>, otherwise: Row)
    ensures var r := ChosenFrom(rows, account, otherwise);
            if account.Some? && exists k :: 0 <= k < |rows| && rows[k].id == account
            then exists k :: 0 <= k < |rows| && rows[k] == r && r.id == account && forall j :: 0 <= j < k ==> rows[j].id != account
            else r == otherwise
  {
    if rows != [] {
      var rest := rows[1..];
      ChosenIsReadBy(rest, account, otherwise);
      assert forall k :: 0 <= k < |rest| ==> rest[k] == rows[k + 1];
      if account.Some? && rows[0].id != account && exists k :: 0 <= k < |rows| && rows[k].id == account {
        var k :| 0 <= k < |rows| && rows[k].id == account;
        assert rest[k - 1].id == account;
        var i :| 0 <= i < |rest| && rest[i] == ChosenFrom(rest, account, otherwise) && rest[i].id == account
                 && forall j :: 0 <= j < i ==> rest[j].id != account;
        assert rows[i + 1] == rest[i];
      }
    }
  }

  lemma HearsStep(w: World, t: Told, l: Label) returns (u: Told)
    requires Enabled(w, l) && Knows(w, t)
    ensures Hears(t, l, u) && Knows(Apply(w, l), u)
  {
    var v := Apply(w, l);
    u := Told(v.socket, v.connected, v.forwarding, v.account);
    if l.Accounts? && l.rows != [] {
      ChosenIsReadBy(l.rows, w.account, l.rows[0]);
      assert ReadBy(l.rows, t.account, ChosenRow(l.rows, w.account));
    }
  }

  lemma {:induction false} HearsOverRun(w: World, t: Told, run: seq<Label>) returns (u: Told)
    requires Legal(w, run) && Knows(w, t)
    ensures HearsAll(t, run, u) && Knows(Run(w, run), u)
    decreases |run|
  {
    if run == [] {
      u := t;
    } else {
      var m := HearsStep(w, t, run[0]);
      u := HearsOverRun(Apply(w, run[0]), m, run[1..]);
    }
  }

  const NOTHING_TOLD := Told(false, false, None, None)

  /**
   After any run a call may start exactly when, of what the session was told last, the socket is up and has signed
   in, forwarding is not off, and an account was named.
   */
  lemma MayStartExactly(run: seq<Label>, frames: seq<nat>) returns (u: Told)
    requires Legal(FRESH, run)
    ensures HearsAll(NOTHING_TOLD, run, u)
    ensures Enabled(Run(FRESH, run), Submit(frames)) <==> u.up && u.signedIn && u.forwarding != Some(false) && u.account.Some?
  {
    u := HearsOverRun(FRESH, NOTHING_TOLD, run);
  }

  // ---- Request ids ----

  ghost predicate Increasing(s: seq<int>) { forall j, k :: 0 <= j < k < |s| ==> s[j] < s[k] }

  ghost predicate IdInv(w: World) {
    && Increasing(w.issued) && (forall k :: 0 <= k < |w.issued| ==> w.issued[k] <= w.requestId) && w.requestId >= 0
    && w.lastForwarded == if w.reported == [] then 0 else w.reported[|w.reported| - 1]
  }

  lemma {:induction false} IdsKept(w: World, run: seq<Label>)
    requires IdInv(w) && Legal(w, run)
    ensures IdInv(Run(w, run)) && w.reported <= Run(w, run).reported
    decreases |run|
  {
    if run != [] {
      IdStep(w, run[0]);
      IdsKept(Apply(w, run[0]), run[1..]);
    }
  }

  lemma IdStep(w: World, l: Label)
    requires IdInv(w) && Enabled(w, l)
    ensures IdInv(Apply(w, l)) && w.reported <= Apply(w, l).reported
  {
    if !l.Accounts? && !l.DrawRequest? { IdsUntouched(w, l); }
  }

  lemma IdsUntouched(w: World, l: Label)
    requires Enabled(w, l) && !l.Accounts? && !l.DrawRequest?
    ensures var v := Apply(w, l);
            v.issued == w.issued && v.requestId == w.requestId && v.reported == w.reported && v.lastForwarded == w.lastForwarded
  {
  }

  /** Request ids strictly increase over any run, whatever the venue reports. */
  lemma RequestIdsIncrease(run: seq<Label>)
    requires Legal(FRESH, run)
    ensures Increasing(Run(FRESH, run).issued)
  {
    IdsKept(FRESH, run);
  }

  /** However the session is used while the venue reports these last-forwarded ids, the next id is above all it has reported. */
  ghost predicate AlwaysAbove(reports: seq<int>) {
    forall run :: Legal(FRESH, run) && Run(FRESH, run).reported <= reports ==>
      forall r :: r in Run(FRESH, run).reported ==> r < NextRequestId(Run(FRESH, run))
  }

  /** No positive report is followed by a smaller one. */
  ghost predicate Steady(reports: seq<int>) {
    forall j, k :: 0 <= j < k < |reports| ==> reports[j] <= Max(0, reports[k])
  }

  lemma SteadyAbove(reports: seq<int>, run: seq<Label>)
    requires Steady(reports) && Legal(FRESH, run) && Run(FRESH, run).reported <= reports
    ensures forall r :: r in Run(FRESH, run).reported ==> r < NextRequestId(Run(FRESH, run))
  {
    IdsKept(FRESH, run);
    var v := Run(FRESH, run);
    forall r | r in v.reported ensures r < NextRequestId(v) {
      var j :| 0 <= j < |v.reported| && v.reported[j] == r;
      assert reports[j] == r && reports[|v.reported| - 1] == v.lastForwarded;
    }
  }

  /** The venue reports, and nothing else happens. */
  lemma {:induction false} OnlyReports(reports: seq<int>) returns (run: seq<Label>)
    ensures Legal(FRESH, run) && Run(FRESH, run).reported == reports && Run(FRESH, run).requestId == 0
  {
    if reports == [] {
      run := [];
    } else {
      var n := |reports| - 1;
      run := OnlyReports(reports[..n]);
      var v;
      var row := Row(None, None, Some(reports[n]));
      ChosenHasId([row], Run(FRESH, run).account, row);
      run, v := Extend(FRESH, run, Accounts([row]));
      assert reports == reports[..n] + [reports[n]];
    }
  }

  /** The stored value is the last report, not the highest, so ids stay above every report exactly when reports never fall. */
  lemma AboveExactlyWhenSteady(reports: seq<int>)
    ensures AlwaysAbove(reports) <==> Steady(reports)
  {
    if Steady(reports) {
      forall run | Legal(FRESH, run) && Run(FRESH, run).reported <= reports
        ensures forall r :: r in Run(FRESH, run).reported ==> r < NextRequestId(Run(FRESH, run))
      {
        SteadyAbove(reports, run);
      }
    } else {
      var j, k :| 0 <= j < k < |reports| && reports[j] > Max(0, reports[k]);
      var run := OnlyReports(reports[..k + 1]);
      IdsKept(FRESH, run);
      assert reports[..k + 1][j] in Run(FRESH, run).reported;
      assert !AlwaysAbove(reports);
    }
  }

  // ---- Which account ----

  lemma {:induction false} ChosenHasId(rows: seq<Row>, account: Option<int>, otherwise: Row)
    ensures var r := ChosenFrom(rows, account, otherwise);
            if account.Some? && (exists k :: 0 <= k < |rows| && rows[k].id == account) then r.id == account else r == otherwise
  {
    if rows != [] {
      ChosenHasId(rows[1..], account, otherwise);
      if exists k :: 0 <= k < |rows| && rows[k].id == account {
        var k :| 0 <= k < |rows| && rows[k].id == account;
        assert k > 0 ==> rows[1..][k - 1].id == account;
      }
      if exists k :: 0 <= k < |rows[1..]| && rows[1..][k].id == account {
        var k :| 0 <= k < |rows[1..]| && rows[1..][k].id == account;
        assert rows[k + 1].id == account;
      }
    }
  }

  /** The known account survives a frame exactly when the frame has a row for it, or its first row names none. */
  lemma AccountKeptExactly(w: World, rows: seq<Row>)
    requires w.account.Some? && rows != []
    ensures Apply(w, Accounts(rows)).account == w.account <==>
            (exists k :: 0 <= k < |rows| && rows[k].id == w.account) || rows[0].id.None?
  {
    ChosenHasId(rows, w.account, rows[0]);
  }
}
