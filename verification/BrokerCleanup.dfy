/**
Cleanup and recovery as the broker runs them, call by call, inside a world that does not stand still:
before every answer of Docker everything else may act.  Docker may fail or lag, but what it answers is
true when given.  Each method is a run of the steps of the Broker module.
*/
module BrokerCleanup {
  import opened Base
  import opened Broker

  const BOOT_POLLS := 60
  const EXIT_POLLS := 20

  datatype Fault = NotFound | Failure

  datatype Info = Info(ours: bool, running: bool, exited: bool)

  datatype Target = Target(matches: bool, running: bool)

  /** What is up to Docker at one call: an error, a wrong container id, an exit not yet published, and
      whether the kill helper reports success. */
  datatype Mood = Mood(fault: Option<Fault>, foreign: bool, lagging: bool, killed: bool)

  // ----- what Docker said, and what it settles -----

  /** One answer of Docker to a cleanup: about the exec, about the container, or from the kill helper. */
  datatype Heard =
    | Exec(exec: Result<Info, Fault>)
    | Box(box: Result<Target, Fault>)
    | Helper(fault: Option<Fault>, killed: bool)

  function ExecSays(mood: Mood, w: World, e: nat): Result<Info, Fault> {
    if mood.fault.Some? then Err(mood.fault.value)
    else if e !in w.execs then Err(NotFound)
    else if Live(w, e) || mood.lagging then Ok(Info(!mood.foreign, true, false))
    else Ok(Info(!mood.foreign, false, w.execs[e] == Finished))
  }

  function BoxSays(mood: Mood, w: World): Result<Target, Fault> {
    if mood.fault.Some? then Err(Failure)
    else match w.container
      case Up => Ok(Target(true, true))
      case Gone => Err(NotFound)
      case Stopped => Ok(Target(false, false))
  }

  /** A missing exec proves nothing unless its container is missing too. */
  function AfterNotFound(h: seq<Heard>): Option<bool> {
    if h != [] && h[0].Box? then Some(h[0].box == Err(NotFound)) else None
  }

  /** Up to `n` looks at the exec. */
  function Polled(n: nat, h: seq<Heard>): Option<bool> {
    if n == 0 then Some(false)
    else if h == [] || !h[0].Exec? then None
    else
      match h[0].exec
      case Err(NotFound) => AfterNotFound(h[1..])
      case Err(Failure) => Some(false)
      case Ok(info) => if info.running then Polled(n - 1, h[1..]) else Some(true)
  }

  /** The exec runs in our container: `record` is what the journal says of it. */
  function Chased(record: Option<Record>, h: seq<Heard>): Option<bool> {
    if record.None? then Some(false)
    else
      match record.value.process
      case None => Polled(BOOT_POLLS, h)
      case Some(p) =>
        if p.pid <= 1 || p.start == 0 then Some(false)
        else if h == [] || !h[0].Helper? then None
        else if h[0].fault == Some(NotFound) then AfterNotFound(h[1..])
        else if h[0].fault.Some? || !h[0].killed then Some(false)
        else Polled(EXIT_POLLS, h[1..])
  }

  /** The exec is in our container and was started. */
  function Boxed(record: Option<Record>, info: Info, h: seq<Heard>): Option<bool> {
    if h == [] || !h[0].Box? then None
    else
      match h[0].box
      case Err(fault) => Some(fault.NotFound?)
      case Ok(target) =>
        if !target.matches then Some(!target.running)
        else if !info.running then Some(true)
        else Chased(record, h[1..])
  }

  /** What the answers so far settle: a cleanup confirmed, or not, or nothing yet. */
  function Verdict(record: Option<Record>, h: seq<Heard>): Option<bool> {
    if h == [] || !h[0].Exec? then None
    else
      match h[0].exec
      case Err(NotFound) => AfterNotFound(h[1..])
      case Err(Failure) => Some(false)
      case Ok(info) =>
        if !info.ours then Some(false)
        else if !info.running && !info.exited then Some(true)
        else Boxed(record, info, h[1..])
  }

  /** An answer that says that the exec does not run, or that its container does not. */
  predicate Proof(a: Heard) {
    match a
    case Exec(r) => r.Ok? && !r.value.running
    case Box(r) => r == Err(NotFound) || (r.Ok? && !r.value.running)
    case Helper(_, _) => false
  }

  lemma {:induction false} PolledProves(n: nat, h: seq<Heard>)
    requires Polled(n, h) == Some(true)
    ensures exists a | a in h :: Proof(a)
    decreases n
  {
    assert h[0] in h && forall a | a in h[1..] :: a in h;
    match h[0].exec
    case Err(_) => assert h[1] == h[1..][0] && h[1] in h && Proof(h[1]);
    case Ok(info) =>
      if info.running {
        PolledProves(n - 1, h[1..]);
      } else {
        assert Proof(h[0]);
      }
  }

  /** Only a proof confirms a cleanup; and an exec of ours that is not running is confirmed, unless Docker fails to
      say anything about its container or that container is another one and runs. */
  lemma VerdictMeans(record: Option<Record>, h: seq<Heard>)
    ensures Verdict(record, h) == Some(true) ==> exists a | a in h :: Proof(a)
    ensures h != [] && h[0].Exec? && h[0].exec.Ok? && h[0].exec.value.ours && !h[0].exec.value.running
            && Verdict(record, h).Some? ==>
              Verdict(record, h) == Some(true)
              || (|h| > 1 && (h[1] == Box(Err(Failure)) || (h[1].Box? && h[1].box.Ok? && !h[1].box.value.matches && h[1].box.value.running)))
  {
    hide Polled;
    if Verdict(record, h) == Some(true) {
      assert forall i | 0 <= i < |h| :: h[i] in h;
      assert forall a | a in h[1..] :: a in h;
      if |h| > 2 {
        var rest := h[1..][1..];
        assert forall a | a in rest :: a in h[1..];
        assert forall a | a in rest[1..] :: a in rest;
        if Polled(BOOT_POLLS, rest) == Some(true) {
          PolledProves(BOOT_POLLS, rest);
        }
        if Polled(EXIT_POLLS, rest[1..]) == Some(true) {
          PolledProves(EXIT_POLLS, rest[1..]);
        }
      }
      NothingPolled(BOOT_POLLS);
    }
  }

  lemma NothingPolled(n: nat)
    requires n > 0
    ensures Polled(n, []).None?
  {
  }

  // ----- what may happen elsewhere -----

  /** Not a step of the broker process as a whole, and not one of this token's own cleanup. */
  predicate Elsewhere(a: Action, t: nat) {
    && !a.Start? && !a.Serve? && !a.Crash? && !a.RecoverSee? && !a.RecoverUnlink? && !a.RecoverFail?
    && ((a.See? || a.Unlink? || a.Abandon?) ==> a.token != t)
  }

  predicate AllElsewhere(actions: seq<Action>, t: nat) { forall i | 0 <= i < |actions| :: Elsewhere(actions[i], t) }

  /** The cleanup of token `t` and its exec `e` is under way: by its session, or by recovery. */
  predicate Busy(w: World, t: nat, e: nat) {
    || (w.broker.Serving? && t in w.sessions && (w.sessions[t] == Closing(e) || w.sessions[t] == Cleared(e)))
    || (w.broker.Recovering? && w.sessions == map[] && t in w.broker.todo && t in w.journal && w.journal[t].exec == e
        && w.broker.cleared in {None, Some(t)})
  }

  /** From one world to a later one the cleanup stays under way: a proof once seen is kept, the record
      is as it was, and a recovering broker has done nothing else. */
  predicate Held(w: World, v: World, t: nat, e: nat) {
    && Busy(v, t, e)
    && (Clearing(w, t) == Some(e) ==> Clearing(v, t) == Some(e))
    && (w.broker.Serving? ==> v.broker.Serving?)
    && (w.broker.Recovering? ==> v.broker.Recovering? && v.broker.todo == w.broker.todo && v.broker.success == w.broker.success
                                 && v.journal == w.journal)
    && (t in v.journal <==> t in w.journal) && (t in w.journal ==> v.journal[t] == w.journal[t])
  }

  lemma HeldOn(u: World, v: World, w: World, t: nat, e: nat)
    requires Held(u, v, t, e) && Held(v, w, t, e)
    ensures Held(u, w, t, e)
  {
    hide Busy, Clearing;
  }

  lemma ElsewhereStep(w: World, a: Action, t: nat, e: nat)
    requires Busy(w, t, e) && Elsewhere(a, t)
    ensures Held(w, Do(w, a), t, e)
  {
    if w.broker.Serving? {
      ElsewhereServing(w, a, t, e);
    } else {
      ElsewhereRecovering(w, a, t, e);
    }
    hide Do, Elsewhere, Busy, Held;
  }

  lemma ElsewhereServing(w: World, a: Action, t: nat, e: nat)
    requires Busy(w, t, e) && Elsewhere(a, t) && w.broker.Serving?
    ensures Held(w, Do(w, a), t, e)
  {
    hide Quiet, Halt, Live;
  }

  lemma ElsewhereRecovering(w: World, a: Action, t: nat, e: nat)
    requires Busy(w, t, e) && Elsewhere(a, t) && w.broker.Recovering?
    ensures Held(w, Do(w, a), t, e)
  {
    hide Quiet, Halt, Live;
  }

  lemma {:induction false} ElsewhereRun(w: World, actions: seq<Action>, t: nat, e: nat)
    requires Busy(w, t, e) && AllElsewhere(actions, t)
    ensures Held(w, DoAll(w, actions), t, e)
  {
    if actions != [] {
      hide Do, Elsewhere;
      var front := actions[..|actions| - 1];
      ElsewhereRun(w, front, t, e);
      ElsewhereStep(DoAll(w, front), actions[|actions| - 1], t, e);
      HeldOn(w, DoAll(w, front), DoAll(w, actions), t, e);
      hide Held, Busy;
    }
  }

  function Seeing(w: World, t: nat): Action { if w.broker.Serving? then See(t) else RecoverSee(t) }

  lemma SeeingKeepsDocker(w: World, t: nat)
    ensures Do(w, Seeing(w, t)).execs == w.execs && Do(w, Seeing(w, t)).container == w.container
  {
  }

  lemma SeeingClears(w: World, t: nat, e: nat)
    requires Busy(w, t, e) && Quiet(w, e)
    ensures Held(w, Do(w, Seeing(w, t)), t, e) && Clearing(Do(w, Seeing(w, t)), t) == Some(e)
  {
  }

  /** What a result of the protected part settles, given what is heard after it. */
  function Settled(r: Result<bool, Fault>, more: seq<Heard>): Option<bool> {
    match r case Ok(ok) => Some(ok) case Err(NotFound) => AfterNotFound(more) case Err(Failure) => Some(false)
  }

  function Found(w: World, t: nat): Option<Record> { if t in w.journal then Some(w.journal[t]) else None }

  lemma PolledOnce(n: nat, info: Result<Info, Fault>)
    requires n > 0
    ensures forall more ::
              Polled(n, [Exec(info)] + more)
                == if info.Ok? && info.value.running then Polled(n - 1, more)
                   else Settled(if info.Ok? then Ok(true) else Err(info.error), more)
  {
    forall more: seq<Heard>
      ensures ([Exec(info)] + more)[1..] == more
    {
    }
  }

  lemma FirstAnswer(record: Option<Record>, info: Result<Info, Fault>)
    ensures info.Err? ==> forall more :: Verdict(record, [Exec(info)] + more) == Settled(Err(info.error), more)
    ensures info.Ok? && !info.value.ours ==> forall more :: Verdict(record, [Exec(info)] + more) == Some(false)
    ensures info.Ok? && info.value.ours && !info.value.running && !info.value.exited ==>
              forall more :: Verdict(record, [Exec(info)] + more) == Some(true)
  {
    forall more: seq<Heard>
      ensures ([Exec(info)] + more)[1..] == more
    {
    }
  }

  lemma SecondAnswer(record: Option<Record>, info: Info)
    requires info.ours && (info.running || info.exited)
    ensures forall more :: Verdict(record, [Exec(Ok(info))] + more) == Boxed(record, info, more)
  {
    hide Boxed;
    forall more: seq<Heard>
      ensures ([Exec(Ok(info))] + more)[1..] == more
    {
    }
  }

  lemma BoxAnswer(record: Option<Record>, info: Info, box: Result<Target, Fault>)
    ensures forall more ::
              Boxed(record, info, [Box(box)] + more)
                == match box
                   case Err(fault) => Some(fault.NotFound?)
                   case Ok(target) =>
                     if !target.matches then Some(!target.running)
                     else if !info.running then Some(true) else Chased(record, more)
    ensures record.None? ==> forall more :: Chased(record, more) == Some(false)
  {
    forall more: seq<Heard>
      ensures ([Box(box)] + more)[1..] == more
    {
    }
  }

  lemma HeldSame(w: World, v: World, t: nat, e: nat)
    requires Held(w, v, t, e)
    ensures Found(w, t) == Found(v, t) && Busy(v, t, e)
  {
  }

  lemma StillBusy(w: World, v: World, t: nat, e: nat)
    requires Held(w, v, t, e)
    ensures Busy(v, t, e)
  {
  }

  class Keeper {
    var w: World
    ghost var run: seq<Action>                       // every step since the directories were empty
    const between: nat -> seq<Action>                // what everything else does before the n-th call to Docker
    const moods: nat -> Mood
    var calls: nat
    var aimed: seq<Proc>                             // processes the kill helper was pointed at
    ghost var heard: seq<Heard>                      // every answer of Docker, oldest first

    constructor (between: nat -> seq<Action>, moods: nat -> Mood)
      ensures Valid() && w == FRESH && aimed == [] && heard == [] && this.between == between && this.moods == moods
    {
      w, run, calls, aimed, heard := FRESH, [], 0, [], [];
      this.between, this.moods := between, moods;
    }

    ghost predicate Valid()
      reads this
    {
      w == DoAll(FRESH, run)
    }

    ghost predicate Leaves(t: nat) {
      forall n :: AllElsewhere(between(n), t)
    }

    method Act(a: Action)
      requires Valid()
      modifies this`w, this`run
      ensures Valid() && w == Do(old(w), a) && run == old(run) + [a]
    {
      hide Do;
      assert (run + [a])[..|run|] == run;
      w, run := Do(w, a), run + [a];
    }

    /** Everything else acts, then Docker looks. */
    method Await(t: nat, ghost e: nat) returns (mood: Mood)
      requires Valid() && Busy(w, t, e) && Leaves(t)
      modifies this`w, this`run, this`calls
      ensures Valid() && Held(old(w), w, t, e) && calls == old(calls) + 1 && old(run) <= run
      ensures mood == moods(old(calls))
    {
      hide Do, Busy, Held;
      ElsewhereRun(w, between(calls), t, e);
      DoAllSplits(FRESH, run, between(calls));
      w, run := DoAll(w, between(calls)), run + between(calls);
      mood := moods(calls);
      calls := calls + 1;
    }

    /** The answer about the exec; that it is not running is a proof. */
    method InspectExec(t: nat, e: nat) returns (r: Result<Info, Fault>)
      requires Valid() && Busy(w, t, e) && Leaves(t)
      modifies this`w, this`run, this`calls, this`heard
      ensures Valid() && Held(old(w), w, t, e) && calls == old(calls) + 1 && old(run) <= run
      ensures r.Ok? && !r.value.running ==> Clearing(w, t) == Some(e)
      ensures r == ExecSays(moods(old(calls)), w, e) && heard == old(heard) + [Exec(r)]
    {
      hide Do, DoAll, Busy, Clearing;
      ghost var before := w;
      var mood := Await(t, e);
      heard := heard + [Exec(ExecSays(mood, w, e))];
      if mood.fault.Some? {
        return Err(mood.fault.value);
      }
      if e !in w.execs {
        return Err(NotFound);
      }
      if Live(w, e) || mood.lagging {
        return Ok(Info(!mood.foreign, true, false));
      }
      r := Ok(Info(!mood.foreign, false, w.execs[e] == Finished));
      ghost var looked := w;
      SeeingKeepsDocker(w, t);
      SeeingClears(w, t, e);
      Act(Seeing(w, t));
      HeldOn(before, looked, w, t, e);
    }

    /** The answer about the container; that it is gone or stopped is a proof. */
    method InspectContainer(t: nat, e: nat) returns (r: Result<Target, Fault>)
      requires Valid() && Busy(w, t, e) && Leaves(t)
      modifies this`w, this`run, this`calls, this`heard
      ensures Valid() && Held(old(w), w, t, e) && calls == old(calls) + 1 && old(run) <= run
      ensures r == Err(NotFound) || (r.Ok? && !r.value.running) ==> Clearing(w, t) == Some(e)
      ensures r == BoxSays(moods(old(calls)), w) && heard == old(heard) + [Box(r)]
    {
      hide Do, DoAll, Busy, Clearing;
      ghost var before := w;
      var mood := Await(t, e);
      heard := heard + [Box(BoxSays(mood, w))];
      SeeingKeepsDocker(w, t);
      if mood.fault.Some? {
        return Err(Failure);
      }
      if w.container == Up {
        return Ok(Target(true, true));
      }
      r := if w.container == Gone then Err(NotFound) else Ok(Target(false, false));
      ghost var looked := w;
      SeeingClears(w, t, e);
      Act(Seeing(w, t));
      HeldOn(before, looked, w, t, e);
    }

    /** Waits a bounded time for the exec to be reported as not running. */
    method AwaitIdle(polls: nat, t: nat, e: nat) returns (r: Result<bool, Fault>, ghost h: seq<Heard>)
      requires Valid() && Busy(w, t, e) && Leaves(t)
      modifies this`w, this`run, this`calls, this`heard
      ensures Valid() && Held(old(w), w, t, e) && calls <= old(calls) + polls && old(run) <= run
      ensures r == Ok(true) ==> Clearing(w, t) == Some(e)
      ensures heard == old(heard) + h && forall more :: Polled(polls, h + more) == Settled(r, more)
    {
      hide Do, DoAll, Busy, Clearing, Held;
      HeldFirst(w, t, e);
      var i := 0;
      h := [];
      forall more: seq<Heard> ensures h + more == more {}
      while i < polls
        invariant 0 <= i <= polls && Valid() && Held(old(w), w, t, e) && calls == old(calls) + i && old(run) <= run
        invariant Busy(w, t, e) && heard == old(heard) + h
        invariant forall more :: Polled(polls, h + more) == Polled(polls - i, more)
      {
        ghost var before, asked := w, h;
        var info := InspectExec(t, e);
        HeldOn(old(w), before, w, t, e);
        StillBusy(old(w), w, t, e);
        h := h + [Exec(info)];
        PolledOnce(polls - i, info);
        forall more
          ensures Polled(polls, h + more) == Polled(polls - i, [Exec(info)] + more)
        {
          assert h + more == asked + ([Exec(info)] + more);
        }
        if info.Err? {
          return Err(info.error), h;
        }
        if !info.value.running {
          return Ok(true), h;
        }
        i := i + 1;
      }
      return Ok(false), h;
    }

    /** The protected part of cleanup. */
    method Confirm(t: nat, e: nat) returns (r: Result<bool, Fault>, ghost h: seq<Heard>)
      requires Valid() && Busy(w, t, e) && Leaves(t)
      modifies this`w, this`run, this`calls, this`aimed, this`heard
      ensures Valid() && Held(old(w), w, t, e) && calls <= old(calls) + 3 + BOOT_POLLS && old(run) <= run
      ensures r == Ok(true) ==> Clearing(w, t) == Some(e)
      ensures aimed == old(aimed) || Aimed(old(aimed), old(w), t)
      ensures heard == old(heard) + h && forall more :: Verdict(Found(old(w), t), h + more) == Settled(r, more)
    {
      hide Do, DoAll, Busy, Clearing, Chased, Verdict, ExecSays, BoxSays;
      var info := InspectExec(t, e);
      h := [Exec(info)];
      FirstAnswer(Found(w, t), info);
      if info.Err? {
        return Err(info.error), h;
      }
      if !info.value.ours {
        return Ok(false), h;
      }
      if !info.value.running && !info.value.exited {
        return Ok(true), h;
      }
      ghost var first, rest := w, [];
      HeldSame(old(w), first, t, e);
      SecondAnswer(Found(w, t), info.value);
      r, rest := ConfirmBox(info.value, t, e);
      HeldOn(old(w), first, w, t, e);
      forall more
        ensures Verdict(Found(old(w), t), h + rest + more) == Settled(r, more)
      {
        assert h + rest + more == [Exec(info)] + (rest + more);
      }
      h := h + rest;
    }

    /** The exec is ours and was started: what the container says, and if need be the chase. */
    method ConfirmBox(info: Info, t: nat, e: nat) returns (r: Result<bool, Fault>, ghost h: seq<Heard>)
      requires Valid() && Busy(w, t, e) && Leaves(t) && (!info.running ==> Clearing(w, t) == Some(e))
      modifies this`w, this`run, this`calls, this`aimed, this`heard
      ensures Valid() && Held(old(w), w, t, e) && calls <= old(calls) + 2 + BOOT_POLLS && old(run) <= run
      ensures r == Ok(true) ==> Clearing(w, t) == Some(e)
      ensures aimed == old(aimed) || Aimed(old(aimed), old(w), t)
      ensures heard == old(heard) + h && forall more :: Boxed(Found(old(w), t), info, h + more) == Settled(r, more)
    {
      hide Do, DoAll, Busy, Clearing, Chased, BoxSays, Boxed;
      ghost var first := w;
      var container := InspectContainer(t, e);
      h := [Box(container)];
      BoxAnswer(Found(first, t), info, container);
      if container == Err(NotFound) {
        return Ok(true), h;
      }
      if container.Err? {
        return Err(container.error), h;
      }
      if !container.value.matches {
        return Ok(!container.value.running), h;
      }
      if !info.running {
        return Ok(true), h;
      }
      if t !in w.journal {
        return Ok(false), h;                         // the record cannot be read
      }
      ghost var second, rest := w, [];
      r, rest := Chase(w.journal[t].process, t, e);
      HeldOn(first, second, w, t, e);
      forall more
        ensures Boxed(Found(first, t), info, h + rest + more) == Settled(r, more)
      {
        assert h + rest + more == [Box(container)] + (rest + more);
      }
      h := h + rest;
    }

    /** One new aim, at the process the journal names. */
    ghost predicate Aimed(before: seq<Proc>, v: World, t: nat)
      reads this`aimed
    {
      && t in v.journal && v.journal[t].process.Some?
      && var p := v.journal[t].process.value; 1 < p.pid && 0 < p.start && aimed == before + [p]
    }

    /** The exec was seen running: wait for a bootstrap that was never released, or point the kill helper
        at the recorded process and wait for Docker to publish its end. */
    method Chase(process: Option<Proc>, t: nat, e: nat) returns (r: Result<bool, Fault>, ghost h: seq<Heard>)
      requires Valid() && Busy(w, t, e) && Leaves(t) && t in w.journal && process == w.journal[t].process
      modifies this`w, this`run, this`calls, this`aimed, this`heard
      ensures Valid() && Held(old(w), w, t, e) && calls <= old(calls) + 1 + BOOT_POLLS && old(run) <= run
      ensures r == Ok(true) ==> Clearing(w, t) == Some(e)
      ensures aimed == old(aimed) || Aimed(old(aimed), old(w), t)
      ensures heard == old(heard) + h && forall more :: Chased(Found(old(w), t), h + more) == Settled(r, more)
    {
      hide Do, DoAll, Busy, Clearing, Polled;
      HeldFirst(w, t, e);
      h := [];
      if process.None? {
        r, h := AwaitIdle(BOOT_POLLS, t, e);
        return;
      }
      if process.value.pid <= 1 || process.value.start == 0 {
        return Ok(false), [];
      }
      aimed := aimed + [process.value];
      var mood := Await(t, e);
      heard := heard + [Helper(mood.fault, mood.killed)];
      h := [Helper(mood.fault, mood.killed)];
      if mood.fault.Some? {
        return Err(mood.fault.value), h;
      }
      if !mood.killed {
        return Ok(false), h;
      }
      ghost var told, rest := w, [];
      r, rest := AwaitIdle(EXIT_POLLS, t, e);
      HeldOn(old(w), told, w, t, e);
      forall more
        ensures Chased(Found(old(w), t), h + rest + more) == Settled(r, more)
      {
        assert (h + rest + more)[1..] == rest + more;
      }
      h := h + rest;
    }

    /** Whatever Docker answers, and whatever happens between its answers, cleanup comes back with exactly what the
        answers it heard settle, so it is confirmed only with a proof seen in this very call; it asks boundedly
        often, and the only process it ever aims at is the one the journal names. */
    method Cleanup(t: nat, e: nat) returns (ok: bool, ghost h: seq<Heard>)
      requires Valid() && Busy(w, t, e) && Leaves(t)
      modifies this`w, this`run, this`calls, this`aimed, this`heard
      ensures Valid() && Held(old(w), w, t, e) && calls <= old(calls) + 4 + BOOT_POLLS && old(run) <= run
      ensures heard == old(heard) + h && Verdict(Found(old(w), t), h) == Some(ok)
      ensures ok ==> Clearing(w, t) == Some(e)
      ensures aimed == old(aimed) || Aimed(old(aimed), old(w), t)
    {
      hide Do, DoAll, Busy, Clearing, Verdict;
      var confirmed;
      confirmed, h := Confirm(t, e);
      assert h + [] == h;
      if confirmed == Err(NotFound) {
        ghost var first := w;
        var container := InspectContainer(t, e);
        HeldOn(old(w), first, w, t, e);
        h := h + [Box(container)];
        return container == Err(NotFound), h;
      }
      return confirmed == Ok(true), h;
    }

    /** At a step of the run from `since` on, this cleanup saw the exec quiet. */
    ghost predicate SeenSince(since: nat, t: nat, e: nat)
      reads this`run
    {
      exists n | since <= n < |run| :: (run[n] == See(t) || run[n] == RecoverSee(t)) && Quiet(DoAll(FRESH, run[..n]), e)
    }

    /** The end of a session.  With a proof from this very cleanup its record is unlinked, unless the disk
        refuses: then the session just ends, the record may stay, and the broker goes on admitting.
        Without a proof the record stays and nobody is admitted any more. */
    method EndSession(t: nat, e: nat, disk: Disk) returns (ok: bool, ghost h: seq<Heard>)
      requires Valid() && w.broker.Serving? && t in w.sessions && w.sessions[t] == Closing(e) && Leaves(t)
      modifies this`w, this`run, this`calls, this`aimed, this`heard
      ensures Valid() && t !in w.sessions && w.broker.Serving? && old(run) <= run
      ensures heard == old(heard) + h && Verdict(Found(old(w), t), h) == Some(ok)
      ensures ok ==> SeenSince(|old(run)|, t, e)
      ensures !ok ==> w.broker == Serving(true)
      ensures t in w.journal <==> t in old(w).journal && (!ok || disk == Kept)
      ensures t in w.journal ==> w.journal[t] == old(w).journal[t]
    {
      hide DoAll, Quiet, Halt, Verdict;
      ghost var earlier := run;
      ok, h := Cleanup(t, e);
      ghost var asked := run;
      assert asked[..|earlier|] == earlier;
      if ok {
        ghost var n := ProofWasSeen(asked, t);
        Act(Unlink(t, disk));
        assert run[n] == asked[n] && run[..n] == asked[..n];
      } else {
        Act(Abandon(t));
      }
    }

    /** A record is recovered: it reads back as this broker's own, the answers heard confirm its cleanup, and the
        disk takes its removal. */
    predicate Recovered(record: Record, broken: bool, disk: Disk, h: seq<Heard>) {
      !broken && Verdict(Some(record), h) == Some(true) && disk == Synced
    }

    /** A broker coming up: every record is cleaned up and unlinked, or recovery fails; it succeeds exactly when
        every record is recovered.  `broken` are the records that do not read back as this broker's own, `disks`
        what unlinking each of them meets, `said` what Docker answered about each. */
    method Recover(broken: nat -> bool, disks: nat -> Disk) returns (success: bool, ghost said: map<nat, seq<Heard>>)
      requires Valid() && w.broker == Recovering(w.journal.Keys, true, None) && w.sessions == map[]
      requires forall t :: Leaves(t)
      modifies this`w, this`run, this`calls, this`aimed, this`heard
      ensures Valid() && w.broker == Recovering({}, success, None) && w.sessions == map[] && old(run) <= run
      ensures said.Keys == old(w).journal.Keys && forall t | t in said :: Within(heard, said[t])
      ensures success <==> forall t | t in said :: Recovered(old(w).journal[t], broken(t), disks(t), said[t])
      ensures success ==> w.journal == map[]
      ensures w.journal.Keys <= old(w).journal.Keys && forall t | t in w.journal :: w.journal[t] == old(w).journal[t]
    {
      hide Do, Verdict, Within, Recovered;
      success, said := true, map[];
      while w.broker.todo != {}
        invariant Valid() && old(run) <= run && w.sessions == map[]
        invariant w.broker.Recovering? && w.broker.success == success && w.broker.cleared.None?
        invariant w.broker.todo <= w.journal.Keys <= old(w).journal.Keys
        invariant said.Keys == old(w).journal.Keys - w.broker.todo && forall t | t in said :: Within(heard, said[t])
        invariant success <==> forall t | t in said :: Recovered(old(w).journal[t], broken(t), disks(t), said[t])
        invariant forall t | t in w.journal :: w.journal[t] == old(w).journal[t]
        invariant success ==> w.broker.todo == w.journal.Keys
        decreases w.broker.todo
      {
        var t :| t in w.broker.todo;
        ghost var before := heard;
        var ok, h := RecoverOne(t, broken(t), disks(t));
        success, said := success && ok, said[t := h];
        forall u | u in said
          ensures Within(heard, said[u])
        {
          StaysWithin(before, h, said[u]);
        }
      }
      assert success ==> w.journal.Keys == {};
    }

    method RecoverOne(t: nat, broken: bool, disk: Disk) returns (ok: bool, ghost h: seq<Heard>)
      requires Valid() && w.broker.Recovering? && w.broker.cleared.None? && w.sessions == map[] && t in w.broker.todo
      requires t in w.journal && Leaves(t)
      modifies this`w, this`run, this`calls, this`aimed, this`heard
      ensures Valid() && old(run) <= run && w.sessions == map[] && heard == old(heard) + h
      ensures w.broker == Recovering(old(w).broker.todo - {t}, old(w).broker.success && ok, None)
      ensures ok <==> Recovered(old(w).journal[t], broken, disk, h)
      ensures w.journal == old(w).journal || (w.journal == old(w).journal - {t} && SeenSince(|old(run)|, t, old(w).journal[t].exec))
      ensures ok ==> t !in w.journal
    {
      hide DoAll, Quiet, Halt, Verdict;
      if broken {
        Act(RecoverFail(t));
        return false, [];
      }
      ghost var earlier := run;
      ok, h := Cleanup(t, w.journal[t].exec);
      ghost var asked := run;
      assert asked[..|earlier|] == earlier;
      if ok {
        ghost var n := ProofWasSeen(asked, t);
        Act(RecoverUnlink(t, disk));
        assert run[n] == asked[n] && run[..n] == asked[..n];
        ok := disk == Synced;
      } else {
        Act(RecoverFail(t));
      }
    }

    /** A whole start: sessions are served exactly after a recovery of every record, with the task's own
        container running; no record is left then. */
    method Boot(broken: nat -> bool, disks: nat -> Disk) returns (serving: bool, ghost said: map<nat, seq<Heard>>)
      requires Valid() && w.broker == Down && forall t :: Leaves(t)
      modifies this`w, this`run, this`calls, this`aimed, this`heard
      ensures Valid() && (serving <==> w.broker.Serving?)
      ensures said.Keys == old(w).journal.Keys && forall t | t in said :: Within(heard, said[t])
      ensures serving <==> w.container == Up && forall t | t in said :: Recovered(old(w).journal[t], broken(t), disks(t), said[t])
      ensures serving ==> w.journal == map[] && w.sessions == map[]
    {
      hide DoAll, Quiet, Halt, Verdict, Within, Recovered;
      Act(Start);
      var clean;
      clean, said := Recover(broken, disks);
      if clean {
        Act(Serve);
      }
      return w.broker.Serving?, said;
    }
  }

  /** These answers were heard, in a row. */
  ghost predicate Within(heard: seq<Heard>, h: seq<Heard>) {
    exists n: nat :: HeardAt(heard, h, n)
  }

  predicate HeardAt(heard: seq<Heard>, h: seq<Heard>, n: nat) { n + |h| <= |heard| && heard[n..n + |h|] == h }

  lemma StaysWithin(before: seq<Heard>, h: seq<Heard>, g: seq<Heard>)
    ensures Within(before, g) ==> Within(before + h, g)
    ensures Within(before + h, h)
  {
    assert HeardAt(before + h, h, |before|);
    if Within(before, g) {
      var n: nat :| HeardAt(before, g, n);
      assert (before + h)[n..n + |g|] == g && HeardAt(before + h, g, n);
    }
  }

  lemma HeldFirst(w: World, t: nat, e: nat)
    requires Busy(w, t, e)
    ensures Held(w, w, t, e)
  {
  }
}
