/**
Several instances of one journey.  Every request loads its own instance of the row, without a lock, and
the guards of a call read that instance alone; so a call may judge a row that another call has changed
since.  Calls are whole transactions.  Exactly which of them the row and its history survive.
*/
module JourneyInstances {
  import opened Base
  import opened Journey
  import opened JourneyAudit

  /** The row and the history in the database, and the cards that instances hold. */
  datatype World = World(row: Card, history: seq<Row>, cards: map<nat, Card>)

  datatype Step = Load(i: nat) | Call(i: nat, deed: Deed, today: Day)

  function Seen(w: World, i: nat): Snapshot
    requires i in w.cards
  {
    Snapshot(w.cards[i], w.row, w.history)
  }

  predicate Possible(t: Terms, w: World, step: Step) {
    match step
    case Load(_) => true
    case Call(i, d, today) => i in w.cards && Permitted(t, Seen(w, i), d, today)
  }

  function Do(w: World, step: Step): World {
    match step
    case Load(i) => w.(cards := w.cards[i := w.row])
    case Call(i, d, _) =>
      if i !in w.cards then w
      else
        var s := After(Seen(w, i), d);
        World(s.stored, s.history, w.cards[i := s.card])
  }

  function DoAll(w: World, steps: seq<Step>): World {
    if steps == [] then w else Do(DoAll(w, steps[..|steps| - 1]), steps[|steps| - 1])
  }

  /** A life: loads and permitted calls of any instances, in any order. */
  ghost predicate Life(t: Terms, w: World, steps: seq<Step>) {
    forall n | 0 <= n < |steps| :: Possible(t, DoAll(w, steps[..n]), steps[n])
  }

  /** Row and history agree, whatever any instance holds. */
  ghost predicate RowSound(t: Terms, birth: Birth, row: Card, history: seq<Row>) {
    Sound(t, birth, Snapshot(row, row, history))
  }

  // ----- one call of any instance -----

  /** The call suits the row it meets: a move starts no earlier than the row's stage, goes elsewhere, and
      leaves a completed row in the final group; a completion finds the row in the final group when its
      instance is there (or a row created with a result and never moved), and otherwise suits it as a
      move. */
  predicate Fits(birth: Birth, s: Snapshot, d: Deed) {
    match d
    case Rest => true
    case Move(to, date, _, _, _, _) =>
      s.stored.since <= date && s.stored.stage.id != to.id && (HasCompletion(s.stored) ==> to.group.Done?)
    case Finish(done, _, day, _, _, _, _) =>
      if done.id == s.card.stage.id then s.stored.stage.group.Done? || (birth.finished && |s.history| == 1)
      else s.stored.since <= day && s.stored.stage.id != done.id
  }

  lemma ChainOnlyGrows(rows: seq<Row>, row: Row)
    requires rows != [] && Chain(CloseOpen(rows, row.started) + [row]) && rows[|rows| - 1].ended.None?
    ensures rows[|rows| - 1].started <= row.started && rows[|rows| - 1].stage.id != row.stage.id
  {
    var longer := CloseOpen(rows, row.started) + [row];
    assert Linked(longer[|rows| - 1], longer[|rows|]);
  }

  /** For a sound row and an instance holding any card at all: a permitted move keeps the row sound if and
      only if it fits the row. */
  lemma MoveFitsExact(t: Terms, birth: Birth, s: Snapshot, d: Deed, today: Day)
    requires RowSound(t, birth, s.stored, s.history) && Permitted(t, s, d, today) && d.Move?
    ensures RowSound(t, birth, After(s, d).stored, After(s, d).history) <==> Fits(birth, s, d)
    ensures SameResult(s.stored, After(s, d).stored)
  {
    var row, v := Row(d.id, d.to, d.date, None, d.who, Strip(d.note)), After(s, d);
    assert v.history == CloseOpen(s.history, d.date) + [row];
    assert v.stored.stage == d.to && v.stored.since == d.date;
    if Fits(birth, s, d) {
      ChainGrows(s.history, row);
      if !birth.finished && HasCompletion(s.stored) {
        var day :| CompletionOk(t, s.stored, day);
        assert CompletionOk(t, v.stored, day);
      }
    }
    if Chain(v.history) {
      ChainOnlyGrows(s.history, row);
    }
    hide Strip, CloseOpen, Linked, Requality;
  }

  /** What a permitted completion writes: always its own result, and the stage columns only if its
      instance was not yet in the final stage. */
  lemma FinishWrites(t: Terms, s: Snapshot, d: Deed, today: Day)
    requires Permitted(t, s, d, today) && d.Finish?
    ensures var v := After(s, d);
            && d.done.group.Done? && t.start <= d.day <= today && (d.verdict.Terminated? ==> Strip(d.text) != "")
            && SameResult(v.stored, Judged(s.stored, d.verdict, d.day, d.who, d.text)) && HasCompletion(v.stored)
            && v.stored.status == Some(d.verdict) && v.stored.completedAt == Some(d.day)
            && if d.done.id == s.card.stage.id
               then v.history == s.history && v.stored.stage == s.stored.stage && v.stored.since == s.stored.since
               else && v.history == CloseOpen(s.history, d.day) + [Row(d.id, d.done, d.day, None, d.who, Strip(Note(d.verdict, d.text)))]
                    && v.stored.stage == d.done && v.stored.since == d.day && StageApplies(t, d.done)
  {
    hide Strip, LatestQuality, CloseOpen, Note, StageApplies;
    ConcludedCard(t, s, d.done, d.verdict, d.day, today, d.ms, d.id, d.who, d.text);
    var c := After(s, d).card;
    assert CompletionOk(t, c, today) && c.comment == d.text;
    assert d.done.id == s.card.stage.id ==> Clean(t, Judged(s.card, d.verdict, d.day, d.who, d.text), today);
    assert FinalFor(t, s.card.stage) == Some(d.done);
  }

  lemma ResultStands(t: Terms, s: Snapshot, d: Deed, today: Day)
    requires Permitted(t, s, d, today) && d.Finish?
    ensures var v := After(s, d).stored; v.stage.group.Done? ==> CompletionOk(t, v, today)
  {
    FinishWrites(t, s, d, today);
    hide After, Strip, Permitted;
  }

  lemma FinishFitsExact(t: Terms, birth: Birth, s: Snapshot, d: Deed, today: Day)
    requires RowSound(t, birth, s.stored, s.history) && Permitted(t, s, d, today) && d.Finish?
    ensures RowSound(t, birth, After(s, d).stored, After(s, d).history) <==> Fits(birth, s, d)
  {
    var v := After(s, d);
    FinishWrites(t, s, d, today);
    ResultStands(t, s, d, today);
    assert Above(s.history, d.id);
    hide After, Strip, Permitted, Note, CloseOpen, StageApplies;
    if d.done.id != s.card.stage.id {
      var row := Row(d.id, d.done, d.day, None, d.who, Strip(Note(d.verdict, d.text)));
      if Fits(birth, s, d) {
        ChainGrows(s.history, row);
      }
      if Chain(v.history) {
        ChainOnlyGrows(s.history, row);
      }
      hide Chain;
      GrownLast(s.history, row);
    }
  }

  lemma GrownLast(rows: seq<Row>, row: Row)
    ensures var longer := CloseOpen(rows, row.started) + [row];
            && |longer| == |rows| + 1 && longer[|rows|] == row
            && forall i | 0 <= i < |rows| :: longer[i].stage == rows[i].stage && longer[i].started == rows[i].started
  {
  }

  /** For a sound row and an instance holding any card at all, stale or not: a permitted call keeps the row
      sound if and only if it fits the row. */
  lemma FitsExact(t: Terms, birth: Birth, s: Snapshot, d: Deed, today: Day)
    requires RowSound(t, birth, s.stored, s.history) && Permitted(t, s, d, today)
    ensures RowSound(t, birth, After(s, d).stored, After(s, d).history) <==> Fits(birth, s, d)
  {
    match d
    case Rest =>
    case Move(_, _, _, _, _, _) => MoveFitsExact(t, birth, s, d, today);
    case Finish(_, _, _, _, _, _, _) => FinishFitsExact(t, birth, s, d, today);
  }

  /** A completion that meets a completed row and says something else. */
  predicate Overrules(s: Snapshot, d: Deed) {
    d.Finish? && Completed(s.stored) && !SameResult(s.stored, Judged(s.stored, d.verdict, d.day, d.who, d.text))
  }

  predicate KeepsResult(a: Card, b: Card) { Completed(a) ==> Completed(b) && SameResult(a, b) }

  /** A fitting call keeps a recorded result if and only if it is not a completion with another result:
      what every completion of a completed row is, unless it repeats verdict, day, judge and comment. */
  lemma ResultExact(t: Terms, birth: Birth, s: Snapshot, d: Deed, today: Day)
    requires RowSound(t, birth, s.stored, s.history) && Permitted(t, s, d, today) && Fits(birth, s, d)
    ensures KeepsResult(s.stored, After(s, d).stored) <==> !Overrules(s, d)
  {
    match d
    case Rest =>
    case Move(_, _, _, _, _, _) => MoveFitsExact(t, birth, s, d, today);
    case Finish(_, _, _, _, _, _, _) =>
      FinishWrites(t, s, d, today);
      hide After, Strip, Permitted, Sound;
  }

  /** An instance that still equals the row fits it and overrules nothing. */
  lemma CurrentFits(t: Terms, birth: Birth, s: Snapshot, d: Deed, today: Day)
    requires RowSound(t, birth, s.stored, s.history) && Permitted(t, s, d, today) && s.card == s.stored
    ensures Fits(birth, s, d) && !Overrules(s, d)
  {
    hide Strip, Sound, LatestQuality, StageApplies;
    if d.Finish? {
      FinishWrites(t, s, d, today);
    }
  }

  // ----- whole lives -----

  predicate FitsAt(birth: Birth, w: World, step: Step) {
    step.Call? && step.i in w.cards ==> Fits(birth, Seen(w, step.i), step.deed)
  }

  predicate OverrulesAt(w: World, step: Step) {
    step.Call? && step.i in w.cards && Overrules(Seen(w, step.i), step.deed)
  }

  ghost predicate WorldSound(t: Terms, birth: Birth, w: World) { RowSound(t, birth, w.row, w.history) }

  lemma StepExact(t: Terms, birth: Birth, w: World, step: Step)
    requires WorldSound(t, birth, w) && Possible(t, w, step)
    ensures WorldSound(t, birth, Do(w, step)) <==> FitsAt(birth, w, step)
    ensures FitsAt(birth, w, step) ==> (KeepsResult(w.row, Do(w, step).row) <==> !OverrulesAt(w, step))
  {
    hide Sound, After, Permitted, Fits, Overrules;
    match step
    case Load(_) =>
    case Call(i, d, today) =>
      FitsExact(t, birth, Seen(w, i), d, today);
      if Fits(birth, Seen(w, i), d) {
        ResultExact(t, birth, Seen(w, i), d, today);
      }
  }

  /** Every call of the life so far fits the row it meets. */
  ghost predicate AllFit(birth: Birth, w: World, steps: seq<Step>) {
    forall n | 0 <= n < |steps| :: FitsAt(birth, DoAll(w, steps[..n]), steps[n])
  }

  ghost predicate AlwaysSound(t: Terms, birth: Birth, w: World, steps: seq<Step>) {
    forall n | 0 <= n <= |steps| :: WorldSound(t, birth, DoAll(w, steps[..n]))
  }

  lemma Prefixes(t: Terms, birth: Birth, w: World, steps: seq<Step>)
    requires steps != []
    ensures var front, n := steps[..|steps| - 1], |steps| - 1;
            && (Life(t, w, steps) <==> Life(t, w, front) && Possible(t, DoAll(w, front), steps[n]))
            && (AllFit(birth, w, steps) <==> AllFit(birth, w, front) && FitsAt(birth, DoAll(w, front), steps[n]))
            && (AlwaysSound(t, birth, w, steps) <==> AlwaysSound(t, birth, w, front) && WorldSound(t, birth, DoAll(w, steps)))
            && steps[..|steps|] == steps
  {
    hide Possible, FitsAt, WorldSound, DoAll;
    var front := steps[..|steps| - 1];
    assert forall k | 0 <= k <= |front| :: front[..k] == steps[..k];
    assert steps[..|steps|] == steps;
  }

  /** Over every life of any number of instances, however stale: row and history agree at every point if
      and only if every call fits the row it meets. */
  lemma {:induction false} AlwaysSoundExact(t: Terms, birth: Birth, w: World, steps: seq<Step>)
    requires WorldSound(t, birth, w) && Life(t, w, steps)
    ensures AlwaysSound(t, birth, w, steps) <==> AllFit(birth, w, steps)
  {
    if steps != [] {
      hide Possible, FitsAt, WorldSound, Do;
      var front := steps[..|steps| - 1];
      Prefixes(t, birth, w, steps);
      hide Life, AllFit, AlwaysSound;
      AlwaysSoundExact(t, birth, w, front);
      if AllFit(birth, w, front) {
        SoundNow(t, birth, w, front);
        StepExact(t, birth, DoAll(w, front), steps[|steps| - 1]);
      }
    }
  }

  lemma SoundNow(t: Terms, birth: Birth, w: World, steps: seq<Step>)
    requires AlwaysSound(t, birth, w, steps)
    ensures WorldSound(t, birth, DoAll(w, steps))
  {
    assert steps[..|steps|] == steps;
  }

  ghost predicate NeverOverruled(w: World, steps: seq<Step>) {
    forall n | 0 <= n < |steps| :: !OverrulesAt(DoAll(w, steps[..n]), steps[n])
  }

  /** Once completed, completed with the same result at every later point. */
  ghost predicate ResultFinal(w: World, steps: seq<Step>) {
    forall m, n | 0 <= m <= n <= |steps| :: KeepsResult(DoAll(w, steps[..m]).row, DoAll(w, steps[..n]).row)
  }

  lemma {:induction false} NeverOverruledKeeps(t: Terms, birth: Birth, w: World, steps: seq<Step>, m: nat)
    requires WorldSound(t, birth, w) && Life(t, w, steps) && AllFit(birth, w, steps) && NeverOverruled(w, steps) && m <= |steps|
    ensures KeepsResult(DoAll(w, steps[..m]).row, DoAll(w, steps).row)
    decreases |steps|
  {
    assert steps[..|steps|] == steps;
    if m < |steps| {
      var front, last := steps[..|steps| - 1], steps[|steps| - 1];
      Prefixes(t, birth, w, steps);
      assert front[..m] == steps[..m];
      assert NeverOverruled(w, front) && !OverrulesAt(DoAll(w, front), last) by {
        assert forall k | 0 <= k <= |front| :: front[..k] == steps[..k];
      }
      hide Life, AllFit, NeverOverruled, AlwaysSound, Do, WorldSound, Possible, FitsAt, OverrulesAt;
      AlwaysSoundExact(t, birth, w, front);
      SoundNow(t, birth, w, front);
      StepExact(t, birth, DoAll(w, front), last);
      NeverOverruledKeeps(t, birth, w, front, m);
    }
  }

  lemma OneStepKeeps(t: Terms, birth: Birth, w: World, steps: seq<Step>, n: nat)
    requires WorldSound(t, birth, w) && Life(t, w, steps) && AllFit(birth, w, steps) && ResultFinal(w, steps) && n < |steps|
    ensures !OverrulesAt(DoAll(w, steps[..n]), steps[n])
  {
    var before := steps[..n];
    assert steps[..n + 1][..n] == before;
    assert DoAll(w, steps[..n + 1]) == Do(DoAll(w, before), steps[n]);
    assert KeepsResult(DoAll(w, before).row, DoAll(w, steps[..n + 1]).row);
    AlwaysSoundExact(t, birth, w, steps);
    assert WorldSound(t, birth, DoAll(w, before)) && Possible(t, DoAll(w, before), steps[n]);
    assert FitsAt(birth, DoAll(w, before), steps[n]);
    hide Do, WorldSound, Possible, FitsAt, OverrulesAt, ResultFinal, AllFit, Life, AlwaysSound, KeepsResult;
    StepExact(t, birth, DoAll(w, before), steps[n]);
  }

  lemma LifePrefix(t: Terms, birth: Birth, w: World, steps: seq<Step>, n: nat)
    requires Life(t, w, steps) && AllFit(birth, w, steps) && NeverOverruled(w, steps) && n <= |steps|
    ensures Life(t, w, steps[..n]) && AllFit(birth, w, steps[..n]) && NeverOverruled(w, steps[..n])
  {
    hide Possible, FitsAt, OverrulesAt, DoAll;
    assert forall k | 0 <= k <= n :: steps[..n][..k] == steps[..k];
  }

  /** In a life whose calls fit, a recorded result is final if and only if no call overrules one. */
  lemma ResultFinalExact(t: Terms, birth: Birth, w: World, steps: seq<Step>)
    requires WorldSound(t, birth, w) && Life(t, w, steps) && AllFit(birth, w, steps)
    ensures ResultFinal(w, steps) <==> NeverOverruled(w, steps)
  {
    hide Possible, FitsAt, OverrulesAt, WorldSound, DoAll, KeepsResult;
    if NeverOverruled(w, steps) {
      forall m, n | 0 <= m <= n <= |steps|
        ensures KeepsResult(DoAll(w, steps[..m]).row, DoAll(w, steps[..n]).row)
      {
        LifePrefix(t, birth, w, steps, n);
        NeverOverruledKeeps(t, birth, w, steps[..n], m);
        assert steps[..n][..m] == steps[..m];
      }
    }
    if ResultFinal(w, steps) {
      forall n | 0 <= n < |steps|
        ensures !OverrulesAt(DoAll(w, steps[..n]), steps[n])
      {
        OneStepKeeps(t, birth, w, steps, n);
      }
    }
  }

  /** What locking and reloading the row for every call would give. */
  ghost predicate AlwaysCurrent(w: World, steps: seq<Step>) {
    forall n | 0 <= n < |steps| :: CurrentCall(DoAll(w, steps[..n]), steps[n])
  }

  lemma CurrentAt(t: Terms, birth: Birth, w: World, step: Step)
    requires WorldSound(t, birth, w) && Possible(t, w, step)
    requires step.Call? && step.i in w.cards ==> w.cards[step.i] == w.row
    ensures FitsAt(birth, w, step) && !OverrulesAt(w, step)
  {
    hide Sound, Permitted, Fits, Overrules;
    if step.Call? {
      CurrentFits(t, birth, Seen(w, step.i), step.deed, step.today);
    }
  }

  predicate CurrentCall(w: World, step: Step) { step.Call? && step.i in w.cards ==> w.cards[step.i] == w.row }

  lemma Shorter(w: World, steps: seq<Step>)
    requires steps != []
    ensures var front, n := steps[..|steps| - 1], |steps| - 1;
            && (AlwaysCurrent(w, steps) <==> AlwaysCurrent(w, front) && CurrentCall(DoAll(w, front), steps[n]))
            && (NeverOverruled(w, steps) <==> NeverOverruled(w, front) && !OverrulesAt(DoAll(w, front), steps[n]))
  {
    hide OverrulesAt, DoAll, CurrentCall;
    var front := steps[..|steps| - 1];
    assert forall k | 0 <= k <= |front| :: front[..k] == steps[..k];
  }

  lemma {:induction false} CurrentCallsFit(t: Terms, birth: Birth, w: World, steps: seq<Step>)
    requires WorldSound(t, birth, w) && Life(t, w, steps) && AlwaysCurrent(w, steps)
    ensures AllFit(birth, w, steps) && NeverOverruled(w, steps)
  {
    if steps != [] {
      hide WorldSound, Do, FitsAt, OverrulesAt, Possible, AlwaysSound, Life, AllFit, AlwaysCurrent, NeverOverruled;
      var front, last := steps[..|steps| - 1], steps[|steps| - 1];
      Prefixes(t, birth, w, steps);
      Shorter(w, steps);
      CurrentCallsFit(t, birth, w, front);
      AlwaysSoundExact(t, birth, w, front);
      SoundNow(t, birth, w, front);
      CurrentAt(t, birth, DoAll(w, front), last);
    }
  }

  /** If every call's instance equals the row when the call runs, a life stays sound and a result, once
      recorded, is final. */
  lemma CurrentLife(t: Terms, birth: Birth, w: World, steps: seq<Step>)
    requires WorldSound(t, birth, w) && Life(t, w, steps) && AlwaysCurrent(w, steps)
    ensures AlwaysSound(t, birth, w, steps) && ResultFinal(w, steps)
  {
    CurrentCallsFit(t, birth, w, steps);
    AlwaysSoundExact(t, birth, w, steps);
    ResultFinalExact(t, birth, w, steps);
  }

  // ----- what the audit sees -----

  ghost predicate CalledBy(steps: seq<Step>, day: Day) {
    forall n | 0 <= n < |steps| && steps[n].Call? :: steps[n].today <= day
  }

  lemma NoLaterStep(t: Terms, s: Snapshot, d: Deed, today: Day, day: Day)
    requires Permitted(t, s, d, today) && NoLater(s.stored, day) && today <= day
    ensures NoLater(After(s, d).stored, day)
  {
    hide Strip, LatestQuality, StageApplies, CloseOpen;
    if d.Finish? {
      FinishWrites(t, s, d, today);
      hide After, Permitted;
    }
  }

  lemma {:induction false} NoLaterLife(t: Terms, w: World, steps: seq<Step>, day: Day)
    requires Life(t, w, steps) && CalledBy(steps, day) && NoLater(w.row, day)
    ensures NoLater(DoAll(w, steps).row, day)
  {
    if steps != [] {
      var n := |steps| - 1;
      var front, last := steps[..n], steps[n];
      assert forall k | 0 <= k <= n :: front[..k] == steps[..k];
      assert Life(t, w, front) && CalledBy(front, day) && Possible(t, DoAll(w, front), last);
      NoLaterLife(t, w, front, day);
      var v := DoAll(w, front);
      if last.Call? {
        NoLaterStep(t, Seen(v, last.i), last.deed, last.today, day);
      }
      hide After, Permitted, NoLater;
    }
  }

  /** Over every life of any instances whose calls fit, from a proper creation and audited on a day not
      before any of its dates: nothing is found except a completion dated otherwise than the final stage. */
  lemma InstancesAudited(t: Terms, birth: Birth, w: World, steps: seq<Step>, today: Day)
    requires WorldSound(t, birth, w) && Life(t, w, steps) && AllFit(birth, w, steps)
    requires StageApplies(t, birth.stage) && birth.since == t.start && !birth.finished
    requires NoLater(w.row, today) && CalledBy(steps, today)
    ensures var v := DoAll(w, steps);
            Meaning(t, v.row, Sorted(v.history), today)
            == CLEAR.(completionDate := v.row.completedAt.Some? && v.row.completedAt.value != v.row.since)
  {
    var v := DoAll(w, steps);
    AlwaysSoundExact(t, birth, w, steps);
    SoundNow(t, birth, w, steps);
    NoLaterLife(t, w, steps, today);
    var s := Snapshot(v.row, v.row, v.history);
    AuditExact(t, birth, s, v.history, today);
    DatesRise(v.history, 0, |v.history| - 1);
    hide Sorted, Meaning, Chain, Life, AllFit, AlwaysSound, CalledBy, DoAll;
  }

  lemma SortedHas(rows: seq<Row>, r: Row)
    requires r in rows
    ensures r in Sorted(rows)
  {
    SortedOrders(rows);
    assert r in multiset(rows);
  }

  /** A call that does not fit is found by the audit when it goes back in time or leaves a result outside
      the final group; a stage entered twice in a row leaves nothing the audit looks at. */
  lemma MisfitShows(t: Terms, birth: Birth, s: Snapshot, d: Deed, today: Day)
    requires RowSound(t, birth, s.stored, s.history) && Permitted(t, s, d, today)
    ensures var v := After(s, d);
            var f := Meaning(t, v.stored, Sorted(v.history), today);
            && (d.Move? && d.date < s.stored.since ==> f.rowInterval)
            && (d.Move? && HasCompletion(s.stored) && !d.to.group.Done? ==> f.completionOutsideDone)
            && (d.Finish? && d.done.id != s.card.stage.id && d.day < s.stored.since ==> f.rowInterval)
            && (d.Finish? && d.done.id == s.card.stage.id && !s.stored.stage.group.Done? ==> f.completionOutsideDone)
  {
    var v := After(s, d);
    var last := |s.history| - 1;
    if d.Finish? {
      FinishWrites(t, s, d, today);
    }
    if (d.Move? && d.date < s.stored.since) || (d.Finish? && d.done.id != s.card.stage.id && d.day < s.stored.since) {
      var closed := s.history[last].(ended := Some(if d.Move? then d.date else d.day));
      assert v.history[last] == closed && closed in v.history;
      SortedHas(v.history, closed);
      var i :| 0 <= i < |Sorted(v.history)| && Sorted(v.history)[i] == closed;
      assert !IntervalOk(Sorted(v.history)[i], today);
    }
    hide Sorted, Strip, Permitted, LatestQuality;
  }

  // ----- a stale completion -----

  const WORK := Stage(1, NoReview, true, Shared, true, true)
  const END := Stage(2, Done, true, Shared, true, true)
  const SHORT := Terms(NewHire, Unified, 0, [WORK, END])
  const HIRED := Card(WORK, 0, None, None, None, None, "", None)
  const OPENED := World(HIRED, [Row(0, WORK, 0, None, None, "")], map[])

  const PASS := Finish(END, Success, 5, [], 1, Some(8), "")
  const DISMISS := Finish(END, Terminated, 3, [], 2, Some(9), "x")

  const PASSED := HIRED.(stage := END, since := 5, status := Some(Success), completedAt := Some(5), judge := Some(8))
  const DISMISSED := HIRED.(stage := END, since := 3, status := Some(Terminated), completedAt := Some(3), comment := "x", judge := Some(9))

  const BOTH_LOADED: seq<Step> := [Load(1), Load(2)]
  const BOTH_FINISH: seq<Step> := [Call(1, PASS, 5), Call(2, DISMISS, 5)]

  lemma Two(w: World, a: Step, b: Step)
    ensures DoAll(w, [a, b]) == Do(Do(w, a), b)
  {
    assert [a, b][..1] == [a] && [a][..0] == [];
    assert DoAll(w, [a]) == Do(w, a);
  }

  lemma PassIs(s: Snapshot)
    requires s == Snapshot(HIRED, HIRED, OPENED.history)
    ensures Permitted(SHORT, s, PASS, 5) && After(s, PASS).stored == PASSED
    ensures |After(s, PASS).history| == 2 && After(s, PASS).history[1].started == 5 && After(s, PASS).history[1].ended.None?
    ensures After(s, PASS).history[1].id == 1
  {
    assert END == SHORT.catalog[1] && FinalFor(SHORT, WORK) == Some(END);
    hide Strip;
  }

  lemma DismissIs(s: Snapshot)
    requires s.card == HIRED && s.stored == PASSED && |s.history| == 2 && s.history[1].id == 1
    requires s.history[1].started == 5 && s.history[1].ended.None?
    ensures Permitted(SHORT, s, DISMISS, 5) && After(s, DISMISS).stored == DISMISSED
    ensures |After(s, DISMISS).history| == 3
    ensures After(s, DISMISS).history[1].started == 5 && After(s, DISMISS).history[1].ended == Some(3)
  {
    assert END == SHORT.catalog[1] && FinalFor(SHORT, WORK) == Some(END);
    assert Strip("x") == "x";
    hide LatestQuality;
  }

  lemma BothLoaded()
    ensures DoAll(OPENED, BOTH_LOADED) == World(HIRED, OPENED.history, map[1 := HIRED, 2 := HIRED])
  {
    Two(OPENED, Load(1), Load(2));
  }

  /** Two instances of one row, each completing it: the second call is permitted too, the stored result
      changes, and the history gets a row that ends before it starts. */
  lemma StaleCompletion()
    ensures WorldSound(SHORT, Birth(WORK, 0, false), OPENED) && Life(SHORT, OPENED, BOTH_LOADED + BOTH_FINISH)
    ensures var w := DoAll(OPENED, BOTH_LOADED);
            && Do(w, BOTH_FINISH[0]).row.status == Some(Success)
            && var v := DoAll(w, BOTH_FINISH);
               v.row.status == Some(Terminated) && |v.history| == 3 && v.history[1].started == 5 && v.history[1].ended == Some(3)
  {
    var w := DoAll(OPENED, BOTH_LOADED);
    BothLoaded();
    PassIs(Seen(w, 1));
    var passed := Do(w, BOTH_FINISH[0]);
    DismissIs(Seen(passed, 2));
    Two(w, BOTH_FINISH[0], BOTH_FINISH[1]);
    hide After, Permitted, Life;
    StaleIsALife();
  }

  lemma StaleIsALife()
    ensures Life(SHORT, OPENED, BOTH_LOADED + BOTH_FINISH)
  {
    var all, w := BOTH_LOADED + BOTH_FINISH, DoAll(OPENED, BOTH_LOADED);
    BothLoaded();
    PassIs(Seen(w, 1));
    DismissIs(Seen(Do(w, BOTH_FINISH[0]), 2));
    hide After, Permitted;
    assert all[..2] == BOTH_LOADED && all[..3][..2] == BOTH_LOADED && all[..3][2] == BOTH_FINISH[0];
    assert DoAll(OPENED, all[..3]) == Do(w, BOTH_FINISH[0]);
    assert Possible(SHORT, DoAll(OPENED, all[..2]), all[2]) && Possible(SHORT, DoAll(OPENED, all[..3]), all[3]);
  }
}
