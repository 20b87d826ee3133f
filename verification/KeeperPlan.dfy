/** When the keeper marks the perp book and with what, and what that does to the age of the mark over a run of ticks. */
module KeeperPlan {
  import opened Options

  const BPS := 10_000
  /** Clock skew allowed between the feed's publisher and the chain. */
  const FUTURE_TOLERANCE_SEC := 60

  datatype Book = Book(equity: int, asOf: int)

  /** The vault's limits and the keeper's own. */
  datatype Settings = Settings(maxAge: nat, bandBps: nat, minChangeBps: nat, minRemark: nat, maxBookAge: nat)

  datatype Mark = Mark(pnl: int, at: int)

  datatype Reason = Lapsed | Due | Moved(distance: nat)

  datatype Alert = LapsedWithoutFeed | FeedOld(seconds: int) | FeedAhead(seconds: int) | GainCapped(raw: int) | LossPastBand(raw: int)

  datatype Why = NoFeed | FeedStale | FeedFromFuture | TooRecent | Unmoved

  datatype Plan = NothingDeployed | Skip(why: Why, alert: Option<Alert>) | Report(pnl: int, reason: Reason, alert: Option<Alert>)

  function Abs(x: int): nat { if x < 0 then -x else x }

  function Band(s: Settings, deployed: nat): int { deployed * s.bandBps / BPS }

  /** At most that many ten-thousandths of what is deployed, up or down. */
  ghost predicate InBand(s: Settings, deployed: nat, pnl: int) { Abs(pnl) * 10_000 <= deployed * s.bandBps }

  function Clamp(raw: int, band: int): int { if raw > band then band else if raw < -band then -band else raw }

  function PlanPerpMark(s: Settings, deployed: nat, mark: Mark, now: int, book: Option<Book>): Plan {
    var age := now - mark.at;
    var stale := age > s.maxAge;
    if deployed == 0 then NothingDeployed
    else if book.None? then Skip(NoFeed, if stale then Some(LapsedWithoutFeed) else None)
    else
      var bookAge := now - book.value.asOf;
      if bookAge > s.maxBookAge then Skip(FeedStale, Some(FeedOld(bookAge)))
      else if bookAge < -FUTURE_TOLERANCE_SEC then Skip(FeedFromFuture, Some(FeedAhead(-bookAge)))
      else
        var raw := book.value.equity - deployed;
        var band := Band(s, deployed);
        var pnl := Clamp(raw, band);
        var alert := if raw > band then Some(GainCapped(raw)) else if raw < -band then Some(LossPastBand(raw)) else None;
        if stale then Report(pnl, Lapsed, alert)
        else if age * 2 >= s.maxAge then Report(pnl, Due, alert)
        else if age < s.minRemark then Skip(TooRecent, alert)
        else
          var moved := Abs(pnl - mark.pnl);
          if moved > deployed * s.minChangeBps / BPS then Report(pnl, Moved(moved), alert) else Skip(Unmoved, alert)
  }

  // ---- One decision ----

  /** A report is inside the band and, of everything inside it, closest to what the book says; it warns exactly when it is not the book itself. */
  lemma ReportIsNearest(s: Settings, deployed: nat, mark: Mark, now: int, book: Option<Book>, other: int)
    requires PlanPerpMark(s, deployed, mark, now, book).Report?
    requires InBand(s, deployed, other)
    ensures var r := PlanPerpMark(s, deployed, mark, now, book);
            && book.Some? && -FUTURE_TOLERANCE_SEC <= now - book.value.asOf <= s.maxBookAge
            && InBand(s, deployed, r.pnl)
            && Abs(r.pnl - (book.value.equity - deployed)) <= Abs(other - (book.value.equity - deployed))
            && (r.alert.None? <==> r.pnl == book.value.equity - deployed)
  {
    var raw, band := book.value.equity - deployed, Band(s, deployed);
    assert Abs(Clamp(raw, band) - raw) <= Abs(other - raw);
  }

  ghost predicate Fresh(s: Settings, book: Book, now: int) { -FUTURE_TOLERANCE_SEC <= now - book.asOf <= s.maxBookAge }

  /** Of the whole band, the value closest to what the book says. */
  ghost predicate Closest(s: Settings, deployed: nat, raw: int, pnl: int) {
    InBand(s, deployed, pnl) && forall other :: InBand(s, deployed, other) ==> Abs(pnl - raw) <= Abs(other - raw)
  }

  lemma ClampIsClosest(s: Settings, deployed: nat, raw: int, pnl: int)
    requires Closest(s, deployed, raw, pnl)
    ensures pnl == Clamp(raw, Band(s, deployed))
  {
    assert InBand(s, deployed, Clamp(raw, Band(s, deployed)));
  }

  /** Why a report is made, in the order in which the reasons count. */
  ghost predicate ReasonIs(s: Settings, age: int, moved: nat, deployed: nat, reason: Reason) {
    if age > s.maxAge then reason == Lapsed
    else if 2 * age >= s.maxAge then reason == Due
    else age >= s.minRemark && moved * 10_000 > deployed * s.minChangeBps && reason == Moved(moved)
  }

  /**
   With something deployed a report is made exactly when the book is fresh and the mark has lapsed, is half-way
   there, or is old enough to move and the value closest to the book lies further from it than the given share of
   what is deployed. Nothing else is ever reported, and nothing at all without a deployment.
   */
  lemma DecisionExactly(s: Settings, deployed: nat, mark: Mark, now: int, book: Option<Book>, pnl: int)
    requires book.Some? ==> Closest(s, deployed, book.value.equity - deployed, pnl)
    ensures var p, age, moved := PlanPerpMark(s, deployed, mark, now, book), now - mark.at, Abs(pnl - mark.pnl);
            && (p.NothingDeployed? <==> deployed == 0)
            && (p.Report? <==>
                  && deployed > 0 && book.Some? && -60 <= now - book.value.asOf <= s.maxBookAge
                  && (age > s.maxAge || 2 * age >= s.maxAge || (age >= s.minRemark && moved * 10_000 > deployed * s.minChangeBps)))
            && (p.Report? ==> p.pnl == pnl && ReasonIs(s, age, moved, deployed, p.reason))
  {
    if book.Some? { ClampIsClosest(s, deployed, book.value.equity - deployed, pnl); }
  }

  /** With a fresh book the keeper lets a mark age only while twice its age is below the limit. */
  lemma SkipsOnlyWhileYoung(s: Settings, deployed: nat, mark: Mark, now: int, book: Book)
    requires deployed > 0 && Fresh(s, book, now)
    ensures 2 * (now - mark.at) >= s.maxAge ==> PlanPerpMark(s, deployed, mark, now, Some(book)).Report?
  {
  }

  // ---- Runs of ticks ----

  /** One tick: how long after the one before, and how long its report takes to land. */
  datatype Round = Round(gap: nat, delay: nat, deployed: nat, book: Book)

  datatype State = State(now: int, mark: Mark)

  function PlanOf(s: Settings, st: State, r: Round): Plan {
    PlanPerpMark(s, r.deployed, st.mark, st.now + r.gap, Some(r.book))
  }

  function After(s: Settings, st: State, r: Round): State {
    var now := st.now + r.gap;
    State(now, if PlanOf(s, st, r).Report? then Mark(PlanOf(s, st, r).pnl, now + r.delay) else st.mark)
  }

  /** The greatest age the mark reaches between the tick before and the end of this one. */
  function Peak(s: Settings, st: State, r: Round): int {
    st.now + r.gap + (if PlanOf(s, st, r).Report? then r.delay else 0) - st.mark.at
  }

  /** Ticks at most `gap` apart, each with a fresh book and after the last report landed, each report landing within `delay`. */
  ghost predicate Paced(s: Settings, gap: nat, delay: nat, st: State, rounds: seq<Round>)
    decreases |rounds|
  {
    rounds != [] ==>
      && rounds[0].gap <= gap && rounds[0].delay <= delay && rounds[0].deployed > 0
      && Fresh(s, rounds[0].book, st.now + rounds[0].gap) && st.mark.at <= st.now + rounds[0].gap
      && Paced(s, gap, delay, After(s, st, rounds[0]), rounds[1..])
  }

  ghost predicate NeverStale(s: Settings, st: State, rounds: seq<Round>)
    decreases |rounds|
  {
    rounds != [] ==> Peak(s, st, rounds[0]) <= s.maxAge && NeverStale(s, After(s, st, rounds[0]), rounds[1..])
  }

  /** Right after a tick that either reported or saw no need to. */
  ghost predicate Settled(s: Settings, st: State) { 2 * (st.now - st.mark.at) < s.maxAge }

  lemma {:induction false} PacedStaysFresh(s: Settings, gap: nat, delay: nat, st: State, rounds: seq<Round>)
    requires s.maxAge > 0 && gap + delay <= s.maxAge / 2 + 1 && Settled(s, st) && Paced(s, gap, delay, st, rounds)
    ensures NeverStale(s, st, rounds)
    decreases |rounds|
  {
    if rounds != [] {
      SkipsOnlyWhileYoung(s, rounds[0].deployed, st.mark, st.now + rounds[0].gap, rounds[0].book);
      PacedStaysFresh(s, gap, delay, After(s, st, rounds[0]), rounds[1..]);
    }
  }

  ghost predicate AlwaysFresh(s: Settings, gap: nat, delay: nat) {
    forall st: State, rounds: seq<Round> :: Settled(s, st) && Paced(s, gap, delay, st, rounds) ==> NeverStale(s, st, rounds)
  }

  /** A tick just before the mark falls due, then the slowest tick and landing allowed. */
  lemma SlowestRun(s: Settings, gap: nat, delay: nat) returns (st: State, rounds: seq<Round>)
    requires s.maxAge > 0 && gap > 0 && gap + delay > s.maxAge / 2 + 1
    ensures Settled(s, st) && Paced(s, gap, delay, st, rounds) && !NeverStale(s, st, rounds)
  {
    var age := (s.maxAge - 1) / 2;
    st := State(age, Mark(0, 0));
    var r := Round(gap, delay, 1, Book(0, age + gap));
    rounds := [r];
    assert rounds[1..] == [];
    SkipsOnlyWhileYoung(s, 1, st.mark, age + gap, r.book);
    assert Peak(s, st, r) == age + gap + delay > s.maxAge;
  }

  /** The mark never lapses exactly when a tick's gap and a landing's delay together fit in half the limit and a second. */
  lemma NeverLapsesExactly(s: Settings, gap: nat, delay: nat)
    requires s.maxAge > 0 && gap > 0
    ensures AlwaysFresh(s, gap, delay) <==> gap + delay <= s.maxAge / 2 + 1
  {
    if gap + delay <= s.maxAge / 2 + 1 {
      forall st: State, rounds: seq<Round> | Settled(s, st) && Paced(s, gap, delay, st, rounds) ensures NeverStale(s, st, rounds) {
        PacedStaysFresh(s, gap, delay, st, rounds);
      }
    } else {
      var st, rounds := SlowestRun(s, gap, delay);
    }
  }

  // ---- What a mark says ----

  /** The mark was taken from the round's book while it was fresh: in the band, and nothing in the band is closer to the book. */
  ghost predicate TakenFrom(s: Settings, r: Round, mark: Mark) {
    var raw := r.book.equity - r.deployed;
    && Fresh(s, r.book, mark.at - r.delay) && InBand(s, r.deployed, mark.pnl)
    && forall other :: InBand(s, r.deployed, other) ==> Abs(mark.pnl - raw) <= Abs(other - raw)
  }

  /** The report warned exactly if the mark is not the book itself. */
  ghost predicate Warned(r: Round, p: Plan)
    requires p.Report?
  {
    p.alert.Some? <==> p.pnl != r.book.equity - r.deployed
  }

  lemma ReportTaken(s: Settings, st: State, r: Round)
    requires PlanOf(s, st, r).Report?
    ensures TakenFrom(s, r, After(s, st, r).mark) && Warned(r, PlanOf(s, st, r))
  {
    forall other | InBand(s, r.deployed, other)
      ensures Abs(After(s, st, r).mark.pnl - (r.book.equity - r.deployed)) <= Abs(other - (r.book.equity - r.deployed))
    {
      ReportIsNearest(s, r.deployed, st.mark, st.now + r.gap, Some(r.book), other);
    }
    ReportIsNearest(s, r.deployed, st.mark, st.now + r.gap, Some(r.book), 0);
  }

  ghost predicate AllWarned(s: Settings, st: State, rounds: seq<Round>)
    decreases |rounds|
  {
    rounds != [] ==> (PlanOf(s, st, rounds[0]).Report? ==> Warned(rounds[0], PlanOf(s, st, rounds[0]))) && AllWarned(s, After(s, st, rounds[0]), rounds[1..])
  }

  /**
   After any run of ticks, however they are paced, the mark is the one it began with or the value of the band
   closest to a book that was fresh when a tick of the run reported it; each report that is not its book warns.
   */
  lemma {:induction false} MarkComesFromBook(s: Settings, st: State, rounds: seq<Round>)
    ensures var mark := Final(s, st, rounds).mark;
            mark == st.mark || exists k :: 0 <= k < |rounds| && TakenFrom(s, rounds[k], mark)
    ensures AllWarned(s, st, rounds)
    decreases |rounds|
  {
    if rounds != [] {
      var next := After(s, st, rounds[0]);
      if PlanOf(s, st, rounds[0]).Report? { ReportTaken(s, st, rounds[0]); }
      MarkComesFromBook(s, next, rounds[1..]);
      var mark := Final(s, st, rounds).mark;
      if mark != next.mark {
        var k :| 0 <= k < |rounds[1..]| && TakenFrom(s, rounds[1..][k], mark);
        assert rounds[k + 1] == rounds[1..][k];
      }
    }
  }

  // ---- Movement is rate limited ----

  function Final(s: Settings, st: State, rounds: seq<Round>): State
    decreases |rounds|
  {
    if rounds == [] then st else Final(s, After(s, st, rounds[0]), rounds[1..])
  }

  ghost predicate OnMovement(s: Settings, st: State, r: Round) { PlanOf(s, st, r).Report? && PlanOf(s, st, r).reason.Moved? }

  /** How many reports of a run were made for movement alone. */
  ghost function Movements(s: Settings, st: State, rounds: seq<Round>): nat
    decreases |rounds|
  {
    if rounds == [] then 0
    else (if OnMovement(s, st, rounds[0]) then 1 else 0) + Movements(s, After(s, st, rounds[0]), rounds[1..])
  }

  /** However the book moves, reports made for movement take at least minRemark each of the time the marks span. */
  lemma {:induction false} MovementIsRateLimited(s: Settings, st: State, rounds: seq<Round>)
    ensures Movements(s, st, rounds) * s.minRemark <= Final(s, st, rounds).mark.at - st.mark.at
    decreases |rounds|
  {
    if rounds != [] {
      var next := After(s, st, rounds[0]);
      MovementIsRateLimited(s, next, rounds[1..]);
      var rest := Movements(s, next, rounds[1..]);
      if OnMovement(s, st, rounds[0]) {
        assert next.mark.at - st.mark.at >= s.minRemark;
        assert (1 + rest) * s.minRemark == s.minRemark + rest * s.minRemark;
      } else {
        assert next.mark.at >= st.mark.at;
      }
    }
  }
}
