/**
The read-only audit of journeys.  It sees stored cards and history rows only, and re-derives from
them what `Journey` is meant to keep.
*/
module JourneyAudit {
  import opened Base
  import opened Journey

  // ----- sorting by (start date, id) -----

  predicate Before(a: Row, b: Row) { a.started < b.started || (a.started == b.started && a.id <= b.id) }

  function Insert(x: Row, rows: seq<Row>): seq<Row> {
    if rows == [] || Before(x, rows[0]) then [x] + rows else [rows[0]] + Insert(x, rows[1..])
  }

  function Sorted(rows: seq<Row>): seq<Row> {
    if rows == [] then [] else Insert(rows[0], Sorted(rows[1..]))
  }

  ghost predicate InOrder(rows: seq<Row>) {
    forall i | 0 <= i < |rows| - 1 :: Before(rows[i], rows[i + 1])
  }

  lemma {:induction false} InsertOrders(x: Row, rows: seq<Row>)
    requires InOrder(rows)
    ensures InOrder(Insert(x, rows)) && multiset(Insert(x, rows)) == multiset(rows) + multiset{x}
    ensures Insert(x, rows) != [] && (Insert(x, rows)[0] == x || (rows != [] && Insert(x, rows)[0] == rows[0]))
  {
    if rows == [] || Before(x, rows[0]) {
    } else {
      var rest := Insert(x, rows[1..]);
      InsertOrders(x, rows[1..]);
      assert rows == [rows[0]] + rows[1..];
      assert forall i | 0 <= i < |rest| - 1 :: ([rows[0]] + rest)[i + 1] == rest[i];
      assert Before(rows[0], rest[0]);
    }
  }

  /** The sort is an ordered permutation, and leaves an ordered list as it is. */
  lemma {:induction false} SortedOrders(rows: seq<Row>)
    ensures InOrder(Sorted(rows)) && multiset(Sorted(rows)) == multiset(rows)
    ensures InOrder(rows) ==> Sorted(rows) == rows
  {
    hide InOrder, Insert;
    if rows == [] {
      NothingInOrder();
    } else {
      SortedOrders(rows[1..]);
      InsertOrders(rows[0], Sorted(rows[1..]));
      assert rows == [rows[0]] + rows[1..];
      if InOrder(rows) {
        FirstStaysFirst(rows);
      }
    }
  }

  lemma NothingInOrder()
    ensures InOrder([])
  {
  }

  lemma FirstStaysFirst(rows: seq<Row>)
    requires rows != [] && InOrder(rows)
    ensures InOrder(rows[1..]) && Insert(rows[0], rows[1..]) == rows
  {
    assert forall i | 0 <= i < |rows[1..]| :: rows[1..][i] == rows[i + 1];
    if |rows| > 1 { assert Before(rows[0], rows[1]); }
    assert [rows[0]] + rows[1..] == rows;
  }

  function Opened(rows: seq<Row>): seq<Row> {
    if rows == [] then []
    else Opened(rows[..|rows| - 1]) + (if rows[|rows| - 1].ended.None? then [rows[|rows| - 1]] else [])
  }

  // ----- findings -----

  /** One flag per code that the audit can raise about a journey's stages and dates. */
  datatype Findings = Findings(
    stageNotApplicable: bool, journeyDates: bool, missingHistory: bool, startMismatch: bool,
    ambiguousOpen: bool, currentMismatch: bool, rowNotApplicable: bool, rowStart: bool, rowInterval: bool,
    gap: bool, completionOutsideDone: bool, completionDate: bool)

  predicate Within(low: Day, x: Day, high: Day) { low <= x <= high }

  predicate IntervalOk(r: Row, today: Day) { r.ended.Some? ==> Within(r.started, r.ended.value, today) }

  predicate CompletionDateOk(t: Terms, c: Card, today: Day) {
    c.completedAt.Some? ==>
      Within(t.start, c.completedAt.value, today) && (c.stage.group.Done? ==> c.completedAt.value == c.since)
  }

  ghost predicate Misplaced(t: Terms, h: seq<Row>) { exists i | 0 <= i < |h| :: !StageApplies(t, h[i].stage) }

  ghost predicate Mistimed(t: Terms, h: seq<Row>, today: Day) { exists i | 0 <= i < |h| :: !Within(t.start, h[i].started, today) }

  ghost predicate Overrun(h: seq<Row>, today: Day) { exists i | 0 <= i < |h| :: !IntervalOk(h[i], today) }

  ghost predicate Gapped(h: seq<Row>) { exists i | 0 <= i < |h| - 1 :: h[i].ended != Some(h[i + 1].started) }

  /** What each code means, over the sorted history `h`. */
  ghost function Meaning(t: Terms, c: Card, h: seq<Row>, today: Day): Findings {
    var open := Opened(h);
    var single := h != [] && open == [h[|h| - 1]];
    Findings(
      !StageApplies(t, c.stage), !Within(t.start, c.since, today),
      h == [], h != [] && h[0].started != t.start,
      !single, single && (h[|h| - 1].stage.id != c.stage.id || h[|h| - 1].started != c.since),
      Misplaced(t, h),
      Mistimed(t, h, today),
      Overrun(h, today),
      Gapped(h),
      HasCompletion(c) && !c.stage.group.Done?, !CompletionDateOk(t, c, today))
  }

  const CLEAR := Findings(false, false, false, false, false, false, false, false, false, false, false, false)

  method OpenRows(h: seq<Row>) returns (open: seq<Row>)
    ensures open == Opened(h)
  {
    open := [];
    for i := 0 to |h|
      invariant open == Opened(h[..i])
    {
      assert h[..i + 1][..i] == h[..i];
      if h[i].ended.None? { open := open + [h[i]]; }
    }
    assert h[..|h|] == h;
  }

  /** The audit of one journey, its rows in any order. */
  method Audit(t: Terms, c: Card, rows: seq<Row>, today: Day) returns (f: Findings)
    ensures f == Meaning(t, c, Sorted(rows), today)
  {
    hide Sorted, StageApplies, Within, CompletionDateOk, HasCompletion, Misplaced, Mistimed, Overrun, Gapped, Opened;
    var h := Sorted(rows);
    var missing, start, ambiguous, current := AuditEnds(t, c, h);
    var misplaced, mistimed, overrun := AuditRows(t, h, today);
    var gap := AuditGaps(h);
    f := Findings(!StageApplies(t, c.stage), !Within(t.start, c.since, today), missing, start, ambiguous, current,
                  misplaced, mistimed, overrun, gap,
                  !c.stage.group.Done? && HasCompletion(c), !CompletionDateOk(t, c, today));
  }

  method AuditEnds(t: Terms, c: Card, h: seq<Row>) returns (missing: bool, start: bool, ambiguous: bool, current: bool)
    ensures missing == (h == []) && start == (h != [] && h[0].started != t.start)
    ensures ambiguous == !(h != [] && Opened(h) == [h[|h| - 1]])
    ensures current == (!ambiguous && (h[|h| - 1].stage.id != c.stage.id || h[|h| - 1].started != c.since))
  {
    hide Opened;
    missing, start, ambiguous, current := false, false, false, false;
    var open := OpenRows(h);
    if h == [] {
      missing := true;
    } else if h[0].started != t.start {
      start := true;
    }
    if |open| != 1 || h == [] || open[0] != h[|h| - 1] {
      ambiguous := true;
    } else if open[0].stage.id != c.stage.id || open[0].started != c.since {
      current := true;
    }
  }

  method AuditRows(t: Terms, h: seq<Row>, today: Day) returns (stage: bool, start: bool, interval: bool)
    ensures stage <==> Misplaced(t, h)
    ensures start <==> Mistimed(t, h, today)
    ensures interval <==> Overrun(h, today)
  {
    hide StageApplies, Within, IntervalOk;
    stage, start, interval := false, false, false;
    for k := 0 to |h|
      invariant stage <==> exists i | 0 <= i < k :: !StageApplies(t, h[i].stage)
      invariant start <==> exists i | 0 <= i < k :: !Within(t.start, h[i].started, today)
      invariant interval <==> exists i | 0 <= i < k :: !IntervalOk(h[i], today)
    {
      if !StageApplies(t, h[k].stage) { stage := true; }
      if !Within(t.start, h[k].started, today) { start := true; }
      if !IntervalOk(h[k], today) { interval := true; }
    }
  }

  method AuditGaps(h: seq<Row>) returns (gap: bool)
    ensures gap <==> Gapped(h)
  {
    gap := false;
    var k := 0;
    while k < |h| - 1
      invariant 0 <= k && (h != [] ==> k <= |h| - 1) && (h == [] ==> k == 0)
      invariant gap <==> exists i | 0 <= i < k :: h[i].ended != Some(h[i + 1].started)
    {
      if h[k].ended != Some(h[k + 1].started) { gap := true; }
      k := k + 1;
    }
  }

  // ----- the audit of a journey that was built by creation, moves and completion -----

  lemma ChainInOrder(rows: seq<Row>)
    requires Chain(rows)
    ensures InOrder(rows)
  {
    forall i | 0 <= i < |rows| - 1
      ensures Before(rows[i], rows[i + 1])
    {
      assert Linked(rows[i], rows[i + 1]);
    }
  }

  lemma {:induction false} OnlyLastOpen(rows: seq<Row>)
    requires Chain(rows)
    ensures Opened(rows) == [rows[|rows| - 1]]
  {
    var closed := rows[..|rows| - 1];
    forall i | 0 <= i < |closed|
      ensures closed[i].ended.Some?
    {
      assert Linked(rows[i], rows[i + 1]);
    }
    NoneOpen(closed);
  }

  lemma {:induction false} NoneOpen(rows: seq<Row>)
    requires forall i | 0 <= i < |rows| :: rows[i].ended.Some?
    ensures Opened(rows) == []
  {
    if rows != [] { NoneOpen(rows[..|rows| - 1]); }
  }

  lemma {:induction false} DatesRise(rows: seq<Row>, i: nat, j: nat)
    requires Chain(rows) && i <= j < |rows|
    ensures rows[i].started <= rows[j].started
    decreases j
  {
    if i < j {
      DatesRise(rows, i, j - 1);
      assert Linked(rows[j - 1], rows[j]);
    }
  }

  /** What the audit says of a sound journey, read off its creation and its card alone. */
  function Expected(t: Terms, birth: Birth, s: Snapshot, today: Day): Findings {
    var c := s.card;
    CLEAR.(stageNotApplicable := |s.history| == 1 && !StageApplies(t, birth.stage),
           journeyDates := !Within(t.start, c.since, today),
           startMismatch := birth.since != t.start,
           rowNotApplicable := !StageApplies(t, birth.stage),
           rowStart := birth.since < t.start || c.since > today,
           rowInterval := |s.history| > 1 && c.since > today,
           completionOutsideDone := HasCompletion(c) && !c.stage.group.Done?,
           completionDate := !CompletionDateOk(t, c, today))
  }

  lemma SoundRows(t: Terms, birth: Birth, s: Snapshot, today: Day)
    requires Sound(t, birth, s)
    ensures var h := s.history;
            && (Misplaced(t, h) <==> !StageApplies(t, birth.stage))
            && (Mistimed(t, h, today)
                <==> birth.since < t.start || s.card.since > today)
            && (Overrun(h, today) <==> |h| > 1 && s.card.since > today)
            && !Gapped(h)
  {
    hide StageApplies, HasCompletion, CompletionOk;
    var h := s.history;
    var last := |h| - 1;
    forall i | 0 <= i < |h|
      ensures birth.since <= h[i].started <= s.card.since
      ensures !IntervalOk(h[i], today) ==> i < last && s.card.since > today
      ensures i < last ==> h[i].ended == Some(h[i + 1].started) && h[i].started <= h[i + 1].started <= s.card.since
    {
      DatesRise(h, 0, i);
      DatesRise(h, i, last);
      if i < last {
        assert Linked(h[i], h[i + 1]);
        DatesRise(h, i + 1, last);
      }
    }
    assert !StageApplies(t, birth.stage) ==> !StageApplies(t, h[0].stage);
    assert birth.since < t.start ==> !Within(t.start, h[0].started, today);
    assert s.card.since > today ==> !Within(t.start, h[last].started, today);
    if |h| > 1 && s.card.since > today {
      assert h[last - 1].ended == Some(h[last - 1 + 1].started);
      assert !IntervalOk(h[last - 1], today);
    }
  }

  /**
    The audit of a sound journey: never a missing, ambiguous, mismatched or gapped history, whatever
    the order its rows are read in; every other code exactly when creation or the audit day causes it.
  */
  lemma AuditExact(t: Terms, birth: Birth, s: Snapshot, rows: seq<Row>, today: Day)
    requires Sound(t, birth, s) && rows == s.history
    ensures Sorted(rows) == s.history
    ensures Meaning(t, s.stored, Sorted(rows), today) == Expected(t, birth, s, today)
  {
    hide Sorted, StageApplies, Within, CompletionDateOk, HasCompletion, CompletionOk, Misplaced, Mistimed, Overrun, Gapped, Opened;
    ChainInOrder(rows);
    SortedOrders(rows);
    OnlyLastOpen(rows);
    hide Chain, InOrder;
    SoundRows(t, birth, s, today);
  }

  /** Over every run of one instance from a proper creation, audited on a day not before any of its dates: nothing is
      found except a completion dated otherwise than the final stage. */
  lemma LifeAudited(t: Terms, birth: Birth, states: seq<Snapshot>, days: seq<Day>, today: Day)
    requires Run(t, states, days) && Sound(t, birth, states[0])
    requires StageApplies(t, birth.stage) && birth.since == t.start && !birth.finished
    requires NoLater(states[0].card, today) && forall i | 0 <= i < |days| :: days[i] <= today
    ensures var last := states[|days|];
            Meaning(t, last.stored, Sorted(last.history), today)
            == CLEAR.(completionDate := last.card.completedAt.Some? && last.card.completedAt.value != last.card.since)
  {
    var last := states[|days|];
    LifeKeeps(t, birth, states, days);
    AuditExact(t, birth, last, last.history, today);
    DatesRise(last.history, 0, |last.history| - 1);
    hide Sorted, Meaning, Chain, Run;
  }

  /** Completion dates the final stage wrongly in one case only: the trainee had been moved to a final
      stage before, on another day. */
  lemma CompletionDateExact(t: Terms, s: Snapshot, d: Deed, today: Day)
    requires d.Finish? && Permitted(t, s, d, today)
    ensures CompletionDateOk(t, After(s, d).card, today) <==> !s.card.stage.group.Done? || d.day == s.card.since
  {
    ConcludedCard(t, s, d.done, d.verdict, d.day, today, d.ms, d.id, d.who, d.text);
    hide Concluded;
    if d.done.id == s.card.stage.id {
      assert Clean(t, Judged(s.card, d.verdict, d.day, d.who, d.text), today);
    }
  }

  /** A journey moved to the final stage on day 5 and completed on day 7: both calls go through, and
      the audit finds the completion date invalid. */
  lemma LateVerdict(review: Stage, done: Stage)
    requires review == Stage(1, NoReview, true, Shared, true, true) && done == Stage(2, Done, true, Shared, true, true)
    ensures var t := Terms(NewHire, Unified, 0, [review, done]);
            var card := Card(review, 0, None, None, None, None, "", None);
            var s := Snapshot(card, card, [Row(0, review, 0, None, None, "")]);
            var move, finish := Move(done, 5, [], 1, None, ""), Finish(done, Success, 7, [], 2, Some(9), "");
            && Sound(t, Birth(review, 0, false), s)
            && Permitted(t, s, move, 5) && Permitted(t, After(s, move), finish, 7)
            && Meaning(t, After(After(s, move), finish).stored, Sorted(After(After(s, move), finish).history), 7).completionDate
  {
    var t := Terms(NewHire, Unified, 0, [review, done]);
    var card := Card(review, 0, None, None, None, None, "", None);
    var s := Snapshot(card, card, [Row(0, review, 0, None, None, "")]);
    var move, finish := Move(done, 5, [], 1, None, ""), Finish(done, Success, 7, [], 2, Some(9), "");
    assert done == t.catalog[1];
    assert Permitted(t, s, move, 5);
    var moved := After(s, move);
    assert moved.card == card.(stage := done, since := 5);
    assert Permitted(t, moved, finish, 7);
    CompletionDateExact(t, moved, finish, 7);
  }

  // ----- outcome and work evidence -----

  datatype Outcome = Active | Insufficient | Proven(status: Status)

  function ProbationOutcome(t: Terms, c: Card, today: Day): Outcome {
    if !c.stage.group.Done? then (if c.status.None? then Active else Insufficient)
    else if c.completedAt.None? || c.judge.None? || !Within(t.start, c.completedAt.value, today)
            || c.since != c.completedAt.value then Insufficient
    else if c.status == Some(Success) then Proven(Success)
    else if c.status == Some(Terminated) && Strip(c.comment) != "" then Proven(Terminated)
    else Insufficient
  }

  /** A completion proves its own verdict to the audit exactly when somebody signed it and the final
      stage starts on its day. */
  lemma OutcomeExact(t: Terms, s: Snapshot, d: Deed, today: Day)
    requires d.Finish? && Permitted(t, s, d, today)
    ensures ProbationOutcome(t, After(s, d).card, today)
            == if d.who.Some? && (!s.card.stage.group.Done? || d.day == s.card.since) then Proven(d.verdict) else Insufficient
  {
    CompletionDateExact(t, s, d, today);
    ConcludedCard(t, s, d.done, d.verdict, d.day, today, d.ms, d.id, d.who, d.text);
    hide Concluded, Permitted, Concludes, Strip;
    var c := After(s, d).card;
    assert SameResult(c, Judged(s.card, d.verdict, d.day, d.who, d.text));
    assert c.completedAt == Some(d.day) && c.status == Some(d.verdict) && c.judge == d.who;
    assert CompletionDateOk(t, c, today) <==> c.since == d.day;
    match d.verdict
    case Success =>
    case Terminated =>
  }

  /** Outside the final group a sound journey is still active exactly while it carries no result, and it carries one
      only if it was created with it and never moved since. */
  lemma OutcomeOutside(t: Terms, birth: Birth, s: Snapshot, today: Day)
    requires Sound(t, birth, s) && !s.card.stage.group.Done?
    ensures ProbationOutcome(t, s.card, today) == (if s.card.status.None? then Active else Insufficient)
    ensures ProbationOutcome(t, s.card, today) != Active ==> birth.finished && |s.history| == 1
  {
  }

  /** So a journey that was created without a result and has not been completed is active, after any life. */
  lemma UnfinishedIsActive(t: Terms, birth: Birth, states: seq<Snapshot>, days: seq<Day>, today: Day)
    requires Run(t, states, days) && Sound(t, birth, states[0]) && !birth.finished
    ensures var c := states[|days|].card;
            ProbationOutcome(t, c, today) == Active <==> !c.stage.group.Done?
  {
    LifeKeeps(t, birth, states, days);
    var s := states[|days|];
    if !s.card.stage.group.Done? {
      OutcomeOutside(t, birth, s, today);
    }
  }

  ghost predicate Evidence(t: Terms, c: Card, h: seq<Row>, today: Day, i: nat)
    requires i < |h|
  {
    && StageApplies(t, h[i].stage) && Within(t.start, h[i].started, today)
    && if i < |h| - 1 then h[i].ended == Some(h[i + 1].started) && h[i].started <= h[i + 1].started
       else h[i].stage.id == c.stage.id && h[i].ended.None? && h[i].started == c.since
  }

  /** The first pass of the work-stage evidence: is the history usable at all? */
  method WorkHistoryValid(t: Terms, c: Card, h: seq<Row>, today: Day) returns (valid: bool)
    ensures valid <==> h != [] && forall i | 0 <= i < |h| :: Evidence(t, c, h, today, i)
  {
    hide StageApplies, Within;
    valid := h != [];
    for k := 0 to |h|
      invariant valid <==> h != [] && forall i | 0 <= i < k :: Evidence(t, c, h, today, i)
    {
      var row := h[k];
      var fine := StageApplies(t, row.stage) && Within(t.start, row.started, today);
      if k < |h| - 1 {
        if row.ended != Some(h[k + 1].started) || row.started > h[k + 1].started { fine := false; }
      } else if row.stage.id != c.stage.id || row.ended.Some? || row.started != c.since {
        fine := false;
      }
      assert fine <==> Evidence(t, c, h, today, k);
      if !fine { valid := false; }
    }
  }

  /** A sound journey's history is usable exactly when it was created in an applicable stage, not
      before probation, and no date lies after the audit day. */
  lemma WorkHistoryExact(t: Terms, birth: Birth, s: Snapshot, today: Day)
    requires Sound(t, birth, s)
    ensures (forall i | 0 <= i < |s.history| :: Evidence(t, s.stored, s.history, today, i))
            <==> StageApplies(t, birth.stage) && t.start <= birth.since && s.card.since <= today
  {
    hide StageApplies, HasCompletion, CompletionOk;
    SoundRows(t, birth, s, today);
    var h := s.history;
    forall i | 0 <= i < |h|
      ensures Evidence(t, s.stored, h, today, i) <==> StageApplies(t, h[i].stage) && Within(t.start, h[i].started, today)
    {
      if i < |h| - 1 { assert Linked(h[i], h[i + 1]); }
    }
    hide Evidence, Within;
  }
}
