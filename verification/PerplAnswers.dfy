/** What each order frame came to, told from what arrived after it was sent, without the session's own bookkeeping. */
module PerplAnswers {
  import opened Options
  import opened PerplProtocol
  import opened PerplGuarantees

  /** The first of: an acknowledgement of this number, with its code; or this frame's own timer, with code -1. */
  ghost function Answer(after: seq<Label>, t: nat, sn: nat): Option<Status> {
    if after == [] then None
    else match after[0]
      case Ack(cid, code) => if cid == Some(sn) then Some(Status(sn, code, code == 0)) else Answer(after[1..], t, sn)
      case Timer(u) => if u == t then Some(Status(sn, -1, false)) else Answer(after[1..], t, sn)
      case _ => Answer(after[1..], t, sn)
  }

  /** The same ticket later on. */
  ghost predicate SameFrame(w: World, v: World, t: nat) {
    && t < |w.tickets| <= |v.tickets|
    && v.tickets[t].call == w.tickets[t].call && v.tickets[t].index == w.tickets[t].index && v.tickets[t].sn == w.tickets[t].sn
  }

  ghost predicate Answered(w: World, v: World, t: nat, answer: Option<Status>) {
    SameFrame(w, v, t) && v.tickets[t].outcome == if w.tickets[t].outcome.Some? then w.tickets[t].outcome else answer
  }

  lemma AckAnswers(w: World, cid: Option<nat>, code: int, t: nat)
    requires Inv(w) && t < |w.tickets|
    ensures Answered(w, Settled(w, cid, code), t, if cid == Some(w.tickets[t].sn) then Some(Status(w.tickets[t].sn, code, code == 0)) else None)
  {
    assert TicketOk(w, t);
    if cid.Some? && cid.value in w.awaiting { assert w.tickets[w.awaiting[cid.value]].sn == cid.value; }
  }

  lemma TimerAnswers(w: World, u: nat, t: nat)
    requires Inv(w) && t < |w.tickets| && Enabled(w, Timer(u))
    ensures Answered(w, Expired(w, u), t, if u == t then Some(Status(w.tickets[t].sn, -1, false)) else None)
  {
    assert TicketOk(w, t) && TicketOk(w, u);
  }

  lemma OthersAnswerNothing(w: World, l: Label, t: nat)
    requires Enabled(w, l) && t < |w.tickets| && !l.Ack? && !l.Timer?
    ensures Answered(w, Apply(w, l), t, None)
  {
  }

  lemma {:induction false} AnswersOverRun(w: World, after: seq<Label>, t: nat)
    requires Inv(w) && Legal(w, after) && Honest(w, after) && t < |w.tickets|
    ensures Answered(w, Run(w, after), t, Answer(after, t, w.tickets[t].sn))
    decreases |after|
  {
    if after != [] {
      var l := after[0];
      match l {
        case Ack(cid, code) => AckAnswers(w, cid, code, t);
        case Timer(u) => TimerAnswers(w, u, t);
        case _ => OthersAnswerNothing(w, l, t);
      }
      StepKeeps(w, l);
      AnswersOverRun(Apply(w, l), after[1..], t);
    }
  }

  /**
   A frame sent at any point of any run comes to the answer that arrives for it first: the acknowledgement of its
   number, accepted exactly under code 0, or else its timer. Until then it has come to nothing.
   */
  lemma OutcomeExactly(before: seq<Label>, c: nat, after: seq<Label>)
    requires Legal(FRESH, before) && Honest(FRESH, before)
    requires Enabled(Run(FRESH, before), Post(c))
    requires var w := Apply(Run(FRESH, before), Post(c)); Legal(w, after) && Honest(w, after)
    ensures var w := Run(FRESH, before);
            var v := Run(Apply(w, Post(c)), after);
            var t, k := |w.tickets|, |w.calls[c].results|;
            var sn := w.calls[c].frames[k];
            && t < |v.tickets| && v.tickets[t].call == c && v.tickets[t].index == k && v.tickets[t].sn == sn
            && v.tickets[t].outcome == Answer(after, t, sn)
  {
    RunKeeps(FRESH, before);
    var w := Run(FRESH, before);
    PostKeeps(w, c);
    AnswersOverRun(Apply(w, Post(c)), after, |w.tickets|);
  }

  // ---- What the caller is told ----

  /** t is the ticket of the k-th frame of a call, and what it came to is the k-th result. */
  ghost predicate ResultOf(w: World, c: nat, k: nat, t: nat) {
    && c < |w.calls| && k < |w.calls[c].results| && t < |w.tickets|
    && w.tickets[t].call == c && w.tickets[t].index == k && w.tickets[t].outcome == Some(w.calls[c].results[k])
  }

  lemma ResumeReads(w: World, d: nat, c: nat, k: nat) returns (t: nat)
    requires Inv(w) && Enabled(w, Resume(d)) && c < |w.calls|
    requires k < |Apply(w, Resume(d)).calls[c].results|
    ensures t < |w.tickets| && (k < |w.calls[c].results| || ResultOf(Apply(w, Resume(d)), c, k, t))
  {
    assert WaitOk(w, d);
    t := w.calls[d].phase.ticket;
  }

  /** What a call has been told already stays, and no step but its own resumption tells it more. */
  lemma ToldStays(w: World, l: Label, c: nat)
    requires Enabled(w, l) && c < |Apply(w, l).calls|
    ensures var before := if c < |w.calls| then w.calls[c].results else [];
            before <= Apply(w, l).calls[c].results && (!l.Resume? ==> Apply(w, l).calls[c].results == before)
  {
  }

  lemma ResultStays(w: World, l: Label, c: nat, k: nat, t: nat)
    requires Inv(w) && Enabled(w, l) && ResultOf(w, c, k, t)
    ensures ResultOf(Apply(w, l), c, k, t)
  {
    ToldStays(w, l, c);
    match l {
      case Ack(cid, code) => AckAnswers(w, cid, code, t);
      case Timer(u) => TimerAnswers(w, u, t);
      case _ => OthersAnswerNothing(w, l, t);
    }
  }

  lemma {:induction false} ResultLives(w: World, run: seq<Label>, c: nat, k: nat, t: nat)
    requires Inv(w) && Legal(w, run) && Honest(w, run) && ResultOf(w, c, k, t)
    ensures ResultOf(Run(w, run), c, k, t)
    decreases |run|
  {
    if run != [] {
      ResultStays(w, run[0], c, k, t);
      StepKeeps(w, run[0]);
      ResultLives(Apply(w, run[0]), run[1..], c, k, t);
    }
  }

  lemma {:induction false} ResultsOverRun(w: World, run: seq<Label>, c: nat, k: nat) returns (t: nat)
    requires Inv(w) && Legal(w, run) && Honest(w, run)
    requires c < |Run(w, run).calls| && k < |Run(w, run).calls[c].results|
    requires c < |w.calls| ==> k >= |w.calls[c].results|
    ensures ResultOf(Run(w, run), c, k, t)
    decreases |run|
  {
    if run == [] {
      assert false;
    } else {
      var l, v := run[0], Apply(w, run[0]);
      StepKeeps(w, l);
      if c < |v.calls| && k < |v.calls[c].results| {
        ToldStays(w, l, c);
        t := ResumeReads(w, l.call, c, k);
        ResultLives(v, run[1..], c, k, t);
      } else {
        t := ResultsOverRun(v, run[1..], c, k);
      }
    }
  }

  /** The k-th result of a call is what the one ticket of its k-th frame came to. */
  lemma ResultsAreOutcomes(run: seq<Label>, c: nat, k: nat) returns (t: nat)
    requires Legal(FRESH, run) && Honest(FRESH, run)
    requires c < |Run(FRESH, run).calls| && k < |Run(FRESH, run).calls[c].results|
    ensures ResultOf(Run(FRESH, run), c, k, t)
    ensures var v := Run(FRESH, run);
            forall u :: 0 <= u < |v.tickets| && v.tickets[u].call == c && v.tickets[u].index == k ==> u == t
  {
    t := ResultsOverRun(FRESH, run, c, k);
    var v := Run(FRESH, run);
    RunKeeps(FRESH, run);
    forall u | 0 <= u < |v.tickets| && v.tickets[u].call == c && v.tickets[u].index == k ensures u == t {
      assert TicketOk(v, u) && TicketOk(v, t);
    }
  }
}
