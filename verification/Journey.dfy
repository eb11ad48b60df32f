/**
A trainee's journey through the stages of probation: the card, its stage history, and the two
operations that change them inside one transaction.
*/
module Journey {
  import opened Base

  type Day = int

  datatype Group = Teachbase | Sandbox | WithReview | OptionalReview | NoReview | Done

  datatype Entry = NewHire | InternalTransfer

  datatype Scheme = Legacy | Unified

  datatype Scope = Only(scheme: Scheme) | Shared

  datatype Stage = Stage(id: nat, group: Group, active: bool, scope: Scope, forNewHire: bool, forTransfer: bool)

  datatype Status = Success | Terminated

  datatype User = User(id: nat, staff: bool)

  datatype Metric = Metric(week: nat, quality: Option<nat>)

  /** What a journey is created with and never changes; the catalogue is in its own display order. */
  datatype Terms = Terms(entry: Entry, scheme: Scheme, start: Day, catalog: seq<Stage>)

  datatype Card = Card(stage: Stage, since: Day, quality: Option<nat>, qualityAt: Option<Day>,
                       status: Option<Status>, completedAt: Option<Day>, comment: string, judge: Option<nat>)

  datatype Row = Row(id: nat, stage: Stage, started: Day, ended: Option<Day>, author: Option<nat>, note: string)

  /** Object fields, database row and history rows. */
  datatype Snapshot = Snapshot(card: Card, stored: Card, history: seq<Row>)

  // ----- policy -----

  predicate AppliesToEntry(s: Stage, e: Entry) {
    if e.InternalTransfer? then s.forTransfer else s.forNewHire
  }

  predicate StageApplies(t: Terms, s: Stage) {
    (s.scope.Shared? || s.scope.scheme == t.scheme) && AppliesToEntry(s, t.entry)
  }

  predicate Selectable(t: Terms, s: Stage) { s in t.catalog && s.active && StageApplies(t, s) }

  predicate HasCompletion(c: Card) { c.status.Some? || c.completedAt.Some? || c.comment != "" || c.judge.Some? }

  predicate White(c: char) { c == ' ' || c == '\t' || c == '\n' || c == '\r' }

  function Strip(s: string): (r: string)
    ensures |r| <= |s| && (r != "" ==> !White(r[0]) && !White(r[|r| - 1]))
  {
    if s == "" then ""
    else if White(s[0]) then Strip(s[1..])
    else if White(s[|s| - 1]) then Strip(s[..|s| - 1])
    else s
  }

  predicate CompletionOk(t: Terms, c: Card, today: Day) {
    && c.stage.group.Done? && c.status.Some? && c.completedAt.Some?
    && t.start <= c.completedAt.value <= today
    && (c.status.value.Terminated? ==> Strip(c.comment) != "")
  }

  /** The model's own validation. */
  predicate Clean(t: Terms, c: Card, today: Day) {
    StageApplies(t, c.stage) && (HasCompletion(c) ==> CompletionOk(t, c, today))
  }

  /** The quality of the latest week that has one. */
  function LatestQuality(ms: seq<Metric>): (r: Option<Metric>)
    ensures r.None? <==> forall i | 0 <= i < |ms| :: ms[i].quality.None?
    ensures r.Some? ==> r.value in ms && r.value.quality.Some?
                        && forall i | 0 <= i < |ms| && ms[i].quality.Some? :: ms[i].week <= r.value.week
  {
    if ms == [] then None
    else
      var m, rest := ms[|ms| - 1], LatestQuality(ms[..|ms| - 1]);
      if m.quality.None? then rest
      else if rest.Some? && rest.value.week >= m.week then rest
      else Some(m)
  }

  // ----- what a move and a completion amount to -----

  /** Quality is fixed on leaving the reviewed stage and released on coming back to it. */
  function Requality(c: Card, from: Stage, to: Stage, date: Day, ms: seq<Metric>): Card {
    if !from.group.WithReview? && to.group.WithReview? then c.(quality := None, qualityAt := None)
    else if from.group.WithReview? && !to.group.WithReview? then
      match LatestQuality(ms)
      case None => c.(quality := None, qualityAt := None)
      case Some(m) => c.(quality := m.quality, qualityAt := Some(date))
    else c
  }

  function MovedCard(c: Card, to: Stage, date: Day, ms: seq<Metric>): Card {
    Requality(c.(stage := to, since := date), c.stage, to, date, ms)
  }

  /** The save of a move writes these four columns. */
  function SaveStage(stored: Card, c: Card): Card {
    stored.(stage := c.stage, since := c.since, quality := c.quality, qualityAt := c.qualityAt)
  }

  /** The save of a completion writes the other four. */
  function SaveCompletion(stored: Card, c: Card): Card {
    stored.(status := c.status, completedAt := c.completedAt, comment := c.comment, judge := c.judge)
  }

  function CloseOpen(rows: seq<Row>, date: Day): (r: seq<Row>) {
    seq(|rows|, i requires 0 <= i < |rows| => if rows[i].ended.None? then rows[i].(ended := Some(date)) else rows[i])
  }

  function Moved(s: Snapshot, to: Stage, date: Day, ms: seq<Metric>, id: nat, who: Option<nat>, note: string): Snapshot {
    var card := MovedCard(s.card, to, date, ms);
    Snapshot(card, SaveStage(s.stored, card), CloseOpen(s.history, date) + [Row(id, to, date, None, who, Strip(note))])
  }

  function Judged(c: Card, status: Status, date: Day, who: Option<nat>, comment: string): Card {
    c.(status := Some(status), completedAt := Some(date), comment := comment, judge := who)
  }

  predicate MoveAllowed(t: Terms, c: Card, to: Stage, date: Day, today: Day, ms: seq<Metric>) {
    Selectable(t, to) && c.since <= date <= today && Clean(t, MovedCard(c, to, date, ms), today)
  }

  // ----- invariants of a journey -----

  /** One stage after another without gaps, in date order and in id order; only the last is open. */
  ghost predicate Chain(rows: seq<Row>) {
    && |rows| > 0 && rows[|rows| - 1].ended.None?
    && forall i | 0 <= i < |rows| - 1 :: Linked(rows[i], rows[i + 1])
  }

  predicate Linked(a: Row, b: Row) {
    a.ended == Some(b.started) && a.started <= b.started && a.id < b.id && a.stage.id != b.stage.id
  }

  /** How a journey was created. */
  datatype Birth = Birth(stage: Stage, since: Day, finished: bool)

  /** The instance equals its row, and the row agrees with its history. */
  ghost predicate Sound(t: Terms, birth: Birth, s: Snapshot) {
    var last := |s.history| - 1;
    && Chain(s.history) && s.stored == s.card
    && s.history[last].stage == s.card.stage && s.history[last].started == s.card.since
    && s.history[0].stage == birth.stage && s.history[0].started == birth.since
    && (forall i | 1 <= i < |s.history| :: StageApplies(t, s.history[i].stage))
    && (HasCompletion(s.card) && !s.card.stage.group.Done? ==> birth.finished && last == 0)
    && (!birth.finished && HasCompletion(s.card) ==> exists day :: CompletionOk(t, s.card, day))
  }

  predicate Completed(c: Card) { c.stage.group.Done? && c.status.Some? }

  predicate SameResult(a: Card, b: Card) {
    a.status == b.status && a.completedAt == b.completedAt && a.comment == b.comment && a.judge == b.judge
  }

  lemma ChainGrows(rows: seq<Row>, row: Row)
    requires Chain(rows) && rows[|rows| - 1].started <= row.started && row.ended.None?
    requires rows[|rows| - 1].id < row.id && rows[|rows| - 1].stage.id != row.stage.id
    ensures Chain(CloseOpen(rows, row.started) + [row])
    ensures forall i | 0 <= i < |rows| ::
              (CloseOpen(rows, row.started) + [row])[i].stage == rows[i].stage
              && (CloseOpen(rows, row.started) + [row])[i].started == rows[i].started
  {
    var longer := CloseOpen(rows, row.started) + [row];
    forall i | 0 <= i < |longer| - 1
      ensures Linked(longer[i], longer[i + 1])
    {
      if i < |rows| - 1 {
        assert Linked(rows[i], rows[i + 1]);
        assert longer[i] == rows[i];
      }
    }
  }

  /** A move that the guards let through keeps the chain, the stored row and the completion rules. */
  lemma MoveKeeps(t: Terms, birth: Birth, s: Snapshot, to: Stage, date: Day, today: Day, ms: seq<Metric>,
                  id: nat, who: Option<nat>, note: string)
    requires Sound(t, birth, s) && MoveAllowed(t, s.card, to, date, today, ms) && to.id != s.card.stage.id
    requires s.history[|s.history| - 1].id < id
    ensures Sound(t, birth, Moved(s, to, date, ms, id, who, note))
    ensures SameResult(s.card, Moved(s, to, date, ms, id, who, note).card)
    ensures HasCompletion(s.card) ==> to.group.Done?
  {
    ChainGrows(s.history, Row(id, to, date, None, who, Strip(note)));
    var m := Moved(s, to, date, ms, id, who, note);
    assert HasCompletion(m.card) ==> CompletionOk(t, m.card, today);
  }

  // ----- the object -----

  datatype Refusal = NotSelectable | FutureDate | BeforeStage | BeforeStart | NoReason | UnknownStatus
                   | AlreadyCompleted | NoFinalStage | Raised

  /** Why a move or a completion is turned down before its transaction, in the order of the checks. */
  function MoveRefusal(t: Terms, c: Card, to: Stage, day: Day, today: Day): Option<Refusal> {
    if !Selectable(t, to) then Some(NotSelectable)
    else if day > today then Some(FutureDate)
    else if day < c.since then Some(BeforeStage)
    else None
  }

  function FinishRefusal(t: Terms, c: Card, verdict: Option<Status>, day: Day, text: string, today: Day): Option<Refusal> {
    if verdict.None? then Some(UnknownStatus)
    else if day < t.start then Some(BeforeStart)
    else if day > today then Some(FutureDate)
    else if verdict.value.Terminated? && text == "" then Some(NoReason)
    else if Completed(c) then Some(AlreadyCompleted)
    else if FinalFor(t, c.stage).None? then Some(NoFinalStage)
    else None
  }

  class Journey {
    const terms: Terms
    /** `faults(k)`: the k-th call into the database, the validators or the publisher raises. */
    const faults: nat -> bool
    var stage: Stage
    var since: Day
    var quality: Option<nat>
    var qualityAt: Option<Day>
    var status: Option<Status>
    var completedAt: Option<Day>
    var comment: string
    var judge: Option<nat>
    var stored: Option<Card>
    var history: seq<Row>
    var nextId: nat
    var calls: nat

    constructor (terms: Terms, faults: nat -> bool, c: Card, firstId: nat)
      ensures this.terms == terms && this.faults == faults && Fields() == c
      ensures stored.None? && history == [] && nextId == firstId && calls == 0
    {
      this.terms, this.faults := terms, faults;
      stage, since, quality, qualityAt := c.stage, c.since, c.quality, c.qualityAt;
      status, completedAt, comment, judge := c.status, c.completedAt, c.comment, c.judge;
      stored, history, nextId, calls := None, [], firstId, 0;
    }

    function Fields(): Card
      reads `stage, `since, `quality, `qualityAt, `status, `completedAt, `comment, `judge
    {
      Card(stage, since, quality, qualityAt, status, completedAt, comment, judge)
    }

    function Now(): Snapshot
      requires stored.Some?
      reads `stage, `since, `quality, `qualityAt, `status, `completedAt, `comment, `judge, `stored, `history
    {
      Snapshot(Fields(), stored.value, history)
    }

    /** Row ids come from a sequence that a rollback does not turn back. */
    predicate FreshIds()
      reads `history, `nextId
    {
      history != [] ==> history[|history| - 1].id < nextId
    }

    ghost predicate Quiet(from: nat)
      reads `calls
    {
      forall k | from <= k < calls :: !faults(k)
    }

    method Try() returns (ok: bool)
      modifies `calls
      ensures calls == old(calls) + 1 && ok == !faults(old(calls))
    {
      ok := !faults(calls);
      calls := calls + 1;
    }

    /** The first save also opens the history; if that second write raises, the row stays without one. */
    method SaveNew() returns (ok: bool)
      requires stored.None? && history == []
      modifies `stored, `history, `nextId, `calls
      ensures ok <==> !faults(old(calls)) && !faults(old(calls) + 1)
      ensures ok ==> stored == Some(Fields()) && FreshIds() && |history| == 1
                     && Sound(terms, Birth(stage, since, HasCompletion(Fields())), Now())
      ensures !ok ==> history == [] && stored == if faults(old(calls)) then None else Some(Fields())
    {
      ok := Try();
      if !ok { return; }
      stored := Some(Fields());
      ok := Try();
      if !ok { return; }
      history, nextId := [Row(nextId, stage, since, None, None, "")], nextId + 1;
    }

    /** The transaction of a move. `false` is an exception at any point of it. */
    method MoveBody(to: Stage, actor: Option<User>, note: string, date: Day, today: Day, ms: seq<Metric>) returns (ok: bool)
      requires stored.Some? && FreshIds()
      modifies `stage, `since, `quality, `qualityAt, `stored, `history, `nextId, `calls
      ensures calls >= old(calls) && nextId >= old(nextId)
      ensures ok ==> && Clean(terms, MovedCard(old(Fields()), to, date, ms), today) && stored.Some? && FreshIds() && nextId == old(nextId) + 1
                     && Now() == Moved(old(Now()), to, date, ms, old(nextId), Id(actor), note)
      ensures Quiet(old(calls)) && Clean(terms, MovedCard(old(Fields()), to, date, ms), today) ==> ok
    {
      hide Clean, MovedCard, SaveStage, CloseOpen, Strip;
      Enter(to, date, ms);
      ok := Try();
      if !ok || !Clean(terms, Fields(), today) { return false; }
      ok := Record(to, actor, note, date);
    }

    /** The database half of a move: close what is open, save the card, open a row, tell the publisher. */
    method Record(to: Stage, actor: Option<User>, note: string, date: Day) returns (ok: bool)
      requires stored.Some?
      modifies `stored, `history, `nextId, `calls
      ensures calls >= old(calls) && nextId >= old(nextId)
      ensures Quiet(old(calls)) ==> ok
      ensures ok ==> && stored == Some(SaveStage(old(stored).value, Fields())) && nextId == old(nextId) + 1
                     && history == CloseOpen(old(history), date) + [Row(old(nextId), to, date, None, Id(actor), Strip(note))]
    {
      hide SaveStage, CloseOpen, Strip;
      ok := Try();
      if !ok { return; }
      history := CloseOpen(history, date);
      ok := Try();
      if !ok { return; }
      stored := Some(SaveStage(stored.value, Fields()));
      ok := Open(to, actor, note, date);
    }

    method Open(to: Stage, actor: Option<User>, note: string, date: Day) returns (ok: bool)
      modifies `history, `nextId, `calls
      ensures calls >= old(calls) && nextId >= old(nextId) && (Quiet(old(calls)) ==> ok)
      ensures ok ==> && nextId == old(nextId) + 1
                     && history == old(history) + [Row(old(nextId), to, date, None, Id(actor), Strip(note))]
    {
      hide Strip;
      ok := Try();
      if !ok { return; }
      history, nextId := history + [Row(nextId, to, date, None, Id(actor), Strip(note))], nextId + 1;
      if actor.Some? && actor.value.staff {
        ok := Try();
        if !ok { return; }
      }
      ok := Try();
    }

    method Enter(to: Stage, date: Day, ms: seq<Metric>)
      modifies `stage, `since, `quality, `qualityAt
      ensures Fields() == MovedCard(old(Fields()), to, date, ms)
    {
      var from := stage;
      stage, since := to, date;
      Regrade(from, to, date, ms);
    }

    method Regrade(from: Stage, to: Stage, date: Day, ms: seq<Metric>)
      modifies `quality, `qualityAt
      ensures Fields() == Requality(old(Fields()), from, to, date, ms)
    {
      var leaving := from.group.WithReview? && !to.group.WithReview?;
      var returning := !from.group.WithReview? && to.group.WithReview?;
      if returning {
        quality, qualityAt := None, None;
        return;
      }
      if !leaving { return; }
      var latest := LatestQuality(ms);
      if latest.None? {
        quality, qualityAt := None, None;
        return;
      }
      quality, qualityAt := latest.value.quality, Some(date);
    }

    /** The single point where a stage changes: all of it or, whatever raises, nothing. */
    method MoveToStage(to: Stage, actor: Option<User>, note: string, date: Option<Day>, today: Day, ms: seq<Metric>)
      returns (r: Result<Stage, Refusal>)
      requires stored.Some? && FreshIds()
      modifies `stage, `since, `quality, `qualityAt, `stored, `history, `nextId, `calls
      ensures stored.Some? && FreshIds() && calls >= old(calls) && nextId >= old(nextId)
      ensures r.Err? || to.id == old(stage).id ==> Now() == old(Now())
      ensures r.Ok? ==> r.value == old(stage)
      ensures to.id == old(stage).id ==> r.Ok?
      ensures var day := if date.Some? then date.value else today;
              to.id != old(stage).id ==>
                && (r.Ok? ==> && MoveAllowed(terms, old(Fields()), to, day, today, ms)
                              && Now() == Moved(old(Now()), to, day, ms, old(nextId), Id(actor), note))
                && (MoveAllowed(terms, old(Fields()), to, day, today, ms) && Quiet(old(calls)) ==> r.Ok?)
      ensures to.id != old(stage).id ==>
                match MoveRefusal(terms, old(Fields()), to, if date.Some? then date.value else today, today)
                case Some(refusal) => r == Err(refusal)
                case None => r.Ok? || r == Err(Raised)
      ensures Next(terms, old(Now()), Now(), today)
    {
      hide Clean, Moved, MovedCard, Selectable, Concluded, Concludes, FinalFor;
      var previous, previousSince, previousQuality, previousQualityAt := stage, since, quality, qualityAt;
      ghost var before := Now();
      assert Permitted(terms, before, Rest, today) && After(before, Rest) == before;
      if stage.id == to.id {
        return Ok(previous);
      }
      if !Selectable(terms, to) {
        return Err(NotSelectable);
      }
      var day := if date.Some? then date.value else today;
      if day > today {
        return Err(FutureDate);
      }
      if day < since {
        return Err(BeforeStage);
      }
      var storedBefore, historyBefore := stored, history;
      var ok := MoveBody(to, actor, note, day, today, ms);
      if !ok {
        stored, history := storedBefore, historyBefore;
        stage, since, quality, qualityAt := previous, previousSince, previousQuality, previousQualityAt;
        assert Now() == before;
        return Err(Raised);
      }
      ghost var deed := Move(to, day, ms, old(nextId), Id(actor), note);
      assert Permitted(terms, before, deed, today) && Now() == After(before, deed);
      r := Ok(previous);
    }

    /** The transaction of a completion. */
    method CompleteBody(done: Stage, verdict: Status, day: Day, actor: Option<User>, text: string, today: Day, ms: seq<Metric>)
      returns (ok: bool)
      requires stored.Some? && FreshIds() && terms.start <= day <= today && (verdict.Terminated? ==> text != "")
      modifies this
      ensures calls >= old(calls) && nextId >= old(nextId)
      ensures ok ==> && stored.Some? && FreshIds() && Concludes(terms, old(Fields()), done, verdict, day, Id(actor), text, today, ms)
                     && Now() == Concluded(old(Now()), done, verdict, day, ms, old(nextId), Id(actor), text)
      ensures Quiet(old(calls)) && Concludes(terms, old(Fields()), done, verdict, day, Id(actor), text, today, ms) ==> ok
    {
      hide Clean, Sound, MovedCard, SaveStage, SaveCompletion, CloseOpen, Strip, Note, Selectable, Judged;
      Judge(verdict, day, actor, text);
      ghost var judged := Now();
      var moved := MoveToStage(done, actor, Note(verdict, text), Some(day), today, ms);
      if moved.Err? { return false; }
      assert Now() == (if done.id == judged.card.stage.id then judged else Moved(judged, done, day, ms, old(nextId), Id(actor), Note(verdict, text)));
      ok := Try();
      if !ok || !Clean(terms, Fields(), today) { return false; }
      ok := RecordResult(verdict, actor);
    }

    method Judge(verdict: Status, day: Day, actor: Option<User>, text: string)
      modifies `status, `completedAt, `comment, `judge
      ensures Fields() == Judged(old(Fields()), verdict, day, Id(actor), text)
    {
      status, completedAt, comment, judge := Some(verdict), Some(day), text, Id(actor);
    }

    method RecordResult(verdict: Status, actor: Option<User>) returns (ok: bool)
      requires stored.Some?
      modifies `stored, `calls
      ensures calls >= old(calls) && (Quiet(old(calls)) ==> ok)
      ensures ok ==> stored == Some(SaveCompletion(old(stored).value, Fields()))
    {
      hide SaveCompletion;
      ok := Try();
      if !ok { return; }
      stored := Some(SaveCompletion(stored.value, Fields()));
      if verdict.Success? && actor.Some? && actor.value.staff {
        ok := Try();
        if !ok { return; }
      }
      ok := Try();
    }

    /** Completion: judged once, all of it or nothing. */
    method CompleteProbation(verdict: Option<Status>, at: Option<Day>, actor: Option<User>, remark: string, today: Day, ms: seq<Metric>)
      returns (r: Result<Stage, Refusal>)
      requires stored.Some? && FreshIds()
      modifies this
      ensures stored.Some? && FreshIds() && calls >= old(calls)
      ensures r.Err? ==> Now() == old(Now())
      ensures old(Completed(Fields())) ==> r.Err?
      ensures var day := if at.Some? then at.value else today;
              var done := FinalFor(terms, old(stage));
              && (r.Ok? ==> && r.value == old(stage) && verdict.Some? && done.Some? && Completed(Fields())
                            && Now() == Concluded(old(Now()), done.value, verdict.value, day, ms, old(nextId), Id(actor), Strip(remark)))
              && (verdict.Some? && done.Some? && !old(Completed(Fields())) && Quiet(old(calls)) ==>
                    Concludes(terms, old(Fields()), done.value, verdict.value, day, Id(actor), Strip(remark), today, ms) ==> r.Ok?)
      ensures match FinishRefusal(terms, old(Fields()), verdict, if at.Some? then at.value else today, Strip(remark), today)
              case Some(refusal) => r == Err(refusal)
              case None => r.Ok? || r == Err(Raised)
      ensures Next(terms, old(Now()), Now(), today)
    {
      hide Clean, Sound, MoveAllowed, Concluded, FirstFinal, Strip, Judged, CompletionOk;
      assert Permitted(terms, Now(), Rest, today) && After(Now(), Rest) == Now();
      var day := if at.Some? then at.value else today;
      var text := Strip(remark);
      if verdict.None? {
        return Err(UnknownStatus);
      }
      if day < terms.start {
        return Err(BeforeStart);
      }
      if day > today {
        return Err(FutureDate);
      }
      if verdict.value.Terminated? && text == "" {
        return Err(NoReason);
      }
      if stage.group.Done? && status.Some? {
        return Err(AlreadyCompleted);
      }
      var done := FinalFor(terms, stage);
      if done.None? {
        return Err(NoFinalStage);
      }
      ghost var deed := Finish(done.value, verdict.value, day, ms, nextId, Id(actor), text);
      r := Conclude(done.value, verdict.value, day, actor, text, today, ms);
      assert r.Ok? ==> Permitted(terms, old(Now()), deed, today) && Now() == After(old(Now()), deed);
    }

    /** Puts the object's fields back; the transaction does not do that. */
    method Restore(c: Card)
      modifies `stage, `since, `quality, `qualityAt, `status, `completedAt, `comment, `judge
      ensures Fields() == c
    {
      stage, since, quality, qualityAt := c.stage, c.since, c.quality, c.qualityAt;
      status, completedAt, comment, judge := c.status, c.completedAt, c.comment, c.judge;
    }

    /** The transaction with its handler: whatever raised, the object and the database are as before. */
    method Conclude(done: Stage, verdict: Status, day: Day, actor: Option<User>, text: string, today: Day, ms: seq<Metric>)
      returns (r: Result<Stage, Refusal>)
      requires stored.Some? && FreshIds() && terms.start <= day <= today && (verdict.Terminated? ==> text != "")
      modifies this
      ensures stored.Some? && FreshIds() && calls >= old(calls)
      ensures r.Err? ==> Now() == old(Now()) && r.error == Raised
      ensures r.Ok? ==> && r.value == old(stage) && Completed(Fields())
                        && Concludes(terms, old(Fields()), done, verdict, day, Id(actor), text, today, ms)
                        && Now() == Concluded(old(Now()), done, verdict, day, ms, old(nextId), Id(actor), text)
      ensures Quiet(old(calls)) && Concludes(terms, old(Fields()), done, verdict, day, Id(actor), text, today, ms) ==> r.Ok?
    {
      hide Concludes, Sound, Concluded, Judged, CompletionOk;
      ghost var before := Now();
      var original, storedBefore, historyBefore := Fields(), stored, history;
      var ok := CompleteBody(done, verdict, day, actor, text, today, ms);
      if !ok {
        stored, history := storedBefore, historyBefore;
        Restore(original);
        assert Now() == before;
        return Err(Raised);
      }
      ConcludedCard(terms, before, done, verdict, day, today, ms, old(nextId), Id(actor), text);
      r := Ok(original.stage);
    }
  }

  function Id(u: Option<User>): Option<nat> { if u.Some? then Some(u.value.id) else None }

  // ----- completion -----

  function Note(verdict: Status, text: string): string {
    if text != "" then text
    else if verdict.Success? then "Испытательный срок успешно пройден" else "Испытательный срок прекращён"
  }

  predicate Final(t: Terms, s: Stage) { s.group.Done? && s.active && StageApplies(t, s) }

  predicate NoFinal(t: Terms, from: nat, to: nat)
    requires to <= |t.catalog|
  {
    forall i | from <= i < to :: !Final(t, t.catalog[i])
  }

  /** The first active final stage of the catalogue that applies. */
  function FirstFinal(t: Terms, n: nat): (r: Option<Stage>)
    requires n <= |t.catalog|
    ensures r.None? <==> NoFinal(t, n, |t.catalog|)
    ensures r.Some? ==> exists i | n <= i < |t.catalog| ::
                          r.value == t.catalog[i] && Final(t, t.catalog[i]) && NoFinal(t, n, i)
    decreases |t.catalog| - n
  {
    if n == |t.catalog| then None
    else if Final(t, t.catalog[n]) then Some(t.catalog[n])
    else FirstFinal(t, n + 1)
  }

  function FinalFor(t: Terms, current: Stage): Option<Stage> {
    if current.group.Done? then Some(current) else FirstFinal(t, 0)
  }

  function Concluded(s: Snapshot, done: Stage, verdict: Status, day: Day, ms: seq<Metric>, id: nat, who: Option<nat>, text: string): Snapshot {
    var judged := s.(card := Judged(s.card, verdict, day, who, text));
    var moved := if done.id == s.card.stage.id then judged else Moved(judged, done, day, ms, id, who, Note(verdict, text));
    moved.(stored := SaveCompletion(moved.stored, moved.card))
  }

  predicate Concludes(t: Terms, c: Card, done: Stage, verdict: Status, day: Day, who: Option<nat>, text: string, today: Day, ms: seq<Metric>) {
    var judged := Judged(c, verdict, day, who, text);
    && t.start <= day <= today && (verdict.Terminated? ==> text != "")
    && if done.id == c.stage.id then Clean(t, judged, today)
       else MoveAllowed(t, judged, done, day, today, ms)
  }

  lemma ConclusionKeeps(t: Terms, birth: Birth, s: Snapshot, done: Stage, verdict: Status, day: Day, today: Day,
                        ms: seq<Metric>, id: nat, who: Option<nat>, text: string)
    requires Concludes(t, s.card, done, verdict, day, who, text, today, ms) && Sound(t, birth, s)
    requires s.history[|s.history| - 1].id < id
    ensures Sound(t, birth, Concluded(s, done, verdict, day, ms, id, who, text))
  {
    hide Strip, Chain, Selectable, StageApplies, Note, LatestQuality;
    ConcludedCard(t, s, done, verdict, day, today, ms, id, who, text);
    if done.id != s.card.stage.id {
      NonEmpty(s.history);
      ChainGrows(s.history, Row(id, done, day, None, who, Strip(Note(verdict, text))));
    }
  }

  lemma ConcludedCard(t: Terms, s: Snapshot, done: Stage, verdict: Status, day: Day, today: Day, ms: seq<Metric>,
                      id: nat, who: Option<nat>, text: string)
    requires Concludes(t, s.card, done, verdict, day, who, text, today, ms)
    ensures var c := Concluded(s, done, verdict, day, ms, id, who, text);
            && Completed(c.card) && CompletionOk(t, c.card, today) && HasCompletion(c.card)
            && SameResult(c.card, Judged(s.card, verdict, day, who, text))
            && c.card.since == (if done.id == s.card.stage.id then s.card.since else day)
            && (s.stored == s.card ==> c.stored == c.card)
  {
    hide Strip, LatestQuality, CloseOpen, Note, StageApplies;
  }

  lemma NonEmpty(rows: seq<Row>)
    requires Chain(rows)
    ensures rows != []
  {
  }

  // ----- whole lives -----

  /** What one call can amount to; `Rest` is a refused, raised or idle call. */
  datatype Deed =
    | Rest
    | Move(to: Stage, date: Day, ms: seq<Metric>, id: nat, who: Option<nat>, note: string)
    | Finish(done: Stage, verdict: Status, day: Day, ms: seq<Metric>, id: nat, who: Option<nat>, text: string)

  function After(s: Snapshot, d: Deed): Snapshot {
    match d
    case Rest => s
    case Move(to, date, ms, id, who, note) => Moved(s, to, date, ms, id, who, note)
    case Finish(done, verdict, day, ms, id, who, text) => Concluded(s, done, verdict, day, ms, id, who, text)
  }

  predicate Permitted(t: Terms, s: Snapshot, d: Deed, today: Day) {
    match d
    case Rest => true
    case Move(to, date, ms, id, who, note) =>
      to.id != s.card.stage.id && MoveAllowed(t, s.card, to, date, today, ms) && Above(s.history, id)
    case Finish(done, verdict, day, ms, id, who, text) =>
      && !Completed(s.card) && FinalFor(t, s.card.stage) == Some(done) && Above(s.history, id)
      && Concludes(t, s.card, done, verdict, day, who, text, today, ms)
  }

  predicate Above(rows: seq<Row>, id: nat) { rows != [] ==> rows[|rows| - 1].id < id }

  ghost predicate Next(t: Terms, s: Snapshot, s': Snapshot, today: Day) {
    exists d :: Permitted(t, s, d, today) && s' == After(s, d)
  }

  /** Every date on the card is no later than `day`. */
  predicate NoLater(c: Card, day: Day) { c.since <= day && (c.completedAt.Some? ==> c.completedAt.value <= day) }

  lemma NextKeeps(t: Terms, birth: Birth, s: Snapshot, s': Snapshot, today: Day)
    requires Next(t, s, s', today) && Sound(t, birth, s)
    ensures Sound(t, birth, s')
    ensures Completed(s.card) ==> Completed(s'.card) && SameResult(s.card, s'.card)
    ensures forall day :: NoLater(s.card, day) && today <= day ==> NoLater(s'.card, day)
  {
    var d :| Permitted(t, s, d, today) && s' == After(s, d);
    match d
    case Rest =>
    case Move(to, date, ms, id, who, note) =>
      MoveKeeps(t, birth, s, to, date, today, ms, id, who, note);
    case Finish(done, verdict, day, ms, id, who, text) =>
      ConclusionKeeps(t, birth, s, done, verdict, day, today, ms, id, who, text);
      hide Sound, Concludes, Concluded, CompletionOk, FinalFor;
      ConcludedCard(t, s, done, verdict, day, today, ms, id, who, text);
      DatedConclusion(t, s, done, verdict, day, today, ms, id, who, text);
  }

  lemma DatedConclusion(t: Terms, s: Snapshot, done: Stage, verdict: Status, day: Day, today: Day, ms: seq<Metric>,
                        id: nat, who: Option<nat>, text: string)
    requires Concludes(t, s.card, done, verdict, day, who, text, today, ms)
    ensures day <= today
  {
  }

  /** A run: one permitted call after another, the i-th on day `days[i]`. */
  ghost predicate Run(t: Terms, states: seq<Snapshot>, days: seq<Day>) {
    |states| == |days| + 1 && forall i | 0 <= i < |days| :: Next(t, states[i], states[i + 1], days[i])
  }

  lemma SameResultChains(a: Card, b: Card, c: Card)
    ensures SameResult(a, a)
    ensures SameResult(a, b) && SameResult(b, c) ==> SameResult(a, c)
  {
  }

  /** Over every run of one instance from a sound journey, with no other instance writing between its
      calls: it stays sound, a completed state at any point fixes the
      result and the final group for good, and no date runs ahead of the days of the calls. */
  lemma {:induction false} LifeKeeps(t: Terms, birth: Birth, states: seq<Snapshot>, days: seq<Day>)
    requires Run(t, states, days) && Sound(t, birth, states[0])
    ensures var last := states[|days|];
            && Sound(t, birth, last)
            && (forall i | 0 <= i < |states| && Completed(states[i].card) ::
                  Completed(last.card) && SameResult(states[i].card, last.card))
            && (forall day :: NoLater(states[0].card, day) && (forall i | 0 <= i < |days| :: days[i] <= day) ==>
                  NoLater(last.card, day))
    decreases |days|
  {
    if days != [] {
      hide Next, Sound, Completed, SameResult;
      var n := |days| - 1;
      LifeKeeps(t, birth, states[..n + 1], days[..n]);
      NextKeeps(t, birth, states[n], states[n + 1], days[n]);
      var shorter := states[..n + 1];
      forall i | 0 <= i < |states| && Completed(states[i].card)
        ensures Completed(states[n + 1].card) && SameResult(states[i].card, states[n + 1].card)
      {
        if i <= n {
          assert shorter[i] == states[i];
          SameResultChains(states[i].card, states[n].card, states[n + 1].card);
        } else {
          SameResultChains(states[i].card, states[i].card, states[i].card);
        }
      }
      forall day | NoLater(states[0].card, day) && forall i | 0 <= i < |days| :: days[i] <= day
        ensures NoLater(states[n + 1].card, day)
      {
        assert shorter[0] == states[0] && days[n] <= day;
        assert forall i | 0 <= i < |days[..n]| :: days[..n][i] <= day;
      }
    }
  }

  // ----- the quality a journey carries -----

  function Lived(s: Snapshot, deeds: seq<Deed>): Snapshot {
    if deeds == [] then s else After(Lived(s, deeds[..|deeds| - 1]), deeds[|deeds| - 1])
  }

  predicate Reviewed(s: Snapshot) { s.card.stage.group.WithReview? }

  /** Call `k` takes the journey into the reviewed stage or out of it. */
  predicate Crosses(s: Snapshot, deeds: seq<Deed>, k: nat)
    requires k < |deeds|
  {
    Reviewed(Lived(s, deeds[..k])) != Reviewed(Lived(s, deeds[..k + 1]))
  }

  function DayOf(d: Deed): Day
    requires !d.Rest?
  {
    if d.Move? then d.date else d.day
  }

  function Marks(s: Snapshot): (Option<nat>, Option<Day>) { (s.card.quality, s.card.qualityAt) }

  /** What leaving the reviewed stage by this call leaves on the card: the latest graded week and the day. */
  function MarksOnLeaving(d: Deed): (Option<nat>, Option<Day>)
    requires !d.Rest?
  {
    match LatestQuality(d.ms)
    case None => (None, None)
    case Some(m) => (m.quality, Some(DayOf(d)))
  }

  lemma DeedMarks(s: Snapshot, d: Deed)
    ensures Reviewed(After(s, d)) == Reviewed(s) ==> Marks(After(s, d)) == Marks(s)
    ensures Reviewed(After(s, d)) != Reviewed(s) ==>
              !d.Rest? && Marks(After(s, d)) == if Reviewed(s) then MarksOnLeaving(d) else (None, None)
  {
    hide LatestQuality, CloseOpen, Strip, Note;
  }

  lemma LivedGrows(s: Snapshot, deeds: seq<Deed>, k: nat)
    requires k < |deeds|
    ensures Lived(s, deeds[..k + 1]) == After(Lived(s, deeds[..k]), deeds[k])
  {
    assert deeds[..k + 1][..k] == deeds[..k];
  }

  lemma SameCrossing(s: Snapshot, deeds: seq<Deed>, n: nat, k: nat)
    requires k < n <= |deeds|
    ensures Crosses(s, deeds[..n], k) == Crosses(s, deeds, k)
  {
    assert deeds[..n][..k] == deeds[..k] && deeds[..n][..k + 1] == deeds[..k + 1];
  }

  /** A stretch of calls that does not cross the border of the reviewed stage leaves the pair alone. */
  lemma {:induction false} MarksStay(s: Snapshot, deeds: seq<Deed>, k: nat)
    requires k <= |deeds| && forall j | k <= j < |deeds| :: !Crosses(s, deeds, j)
    ensures Marks(Lived(s, deeds)) == Marks(Lived(s, deeds[..k])) && Reviewed(Lived(s, deeds)) == Reviewed(Lived(s, deeds[..k]))
    decreases |deeds|
  {
    hide After, Marks, Reviewed, Lived;
    var n := |deeds| - 1;
    if k == |deeds| {
      assert deeds[..k] == deeds;
    } else {
      forall j | k <= j < n
        ensures !Crosses(s, deeds[..n], j)
      {
        SameCrossing(s, deeds, n, j);
      }
      MarksStay(s, deeds[..n], k);
      assert deeds[..n][..k] == deeds[..k] && deeds[..n + 1] == deeds;
      LivedGrows(s, deeds, n);
      assert !Crosses(s, deeds, n);
      DeedMarks(Lived(s, deeds[..n]), deeds[n]);
    }
  }

  /** Call `k` is the last that entered or left the reviewed stage. */
  predicate LastCrossing(s: Snapshot, deeds: seq<Deed>, k: nat)
    requires k < |deeds|
  {
    Crosses(s, deeds, k) && forall j | k < j < |deeds| :: !Crosses(s, deeds, j)
  }

  /** Over every life: the last call that entered or left the reviewed stage decides the pair.  Inside it is
      empty; outside it is the latest graded week at that departure and its day. */
  lemma QualityExact(s: Snapshot, deeds: seq<Deed>, k: nat)
    requires k < |deeds| && LastCrossing(s, deeds, k)
    ensures !deeds[k].Rest?
    ensures Marks(Lived(s, deeds)) == if Reviewed(Lived(s, deeds)) then (None, None) else MarksOnLeaving(deeds[k])
  {
    hide After, Marks, Reviewed, Lived, MarksOnLeaving;
    MarksStay(s, deeds, k + 1);
    LivedGrows(s, deeds, k);
    DeedMarks(Lived(s, deeds[..k]), deeds[k]);
  }

  /** And while no call has crossed the border the pair is what the journey began with. */
  lemma UncrossedQuality(s: Snapshot, deeds: seq<Deed>)
    requires forall j | 0 <= j < |deeds| :: !Crosses(s, deeds, j)
    ensures Marks(Lived(s, deeds)) == Marks(s)
  {
    hide After, Marks, Reviewed;
    MarksStay(s, deeds, 0);
    assert deeds[..0] == [];
  }
}
