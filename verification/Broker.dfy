/**
The terminal broker's crash journal.  Sessions run concurrently; Docker, the bootstrap process and
the user act on their own; the broker may crash between any two effects and be started again.
*/
module Broker {
  import opened Base

  /** The process a journal record pins: pid and start ticks. */
  datatype Proc = Proc(pid: nat, start: nat)

  datatype Record = Record(exec: nat, process: Option<Proc>)

  /** A Docker exec: created, bootstrapping (and whether it was released), running the user's
      shell, or finished. */
  datatype Exec = Created | Booting(proc: Proc, released: bool) | Shell(proc: Proc) | Finished

  datatype Container = Up | Stopped | Gone

  datatype Session =
    | Admitted
    | Made(exec: nat)                       // exec created, nothing durable yet
    | Saved(exec: nat)                      // exec id durable
    | Asked(exec: nat)                      // start requested; Docker may act on it at any time
    | Reported(exec: nat, proc: Proc)       // bootstrap told its identity
    | Named(exec: nat, proc: Proc)          // identity durable
    | Talking(exec: nat)                    // released
    | Closing(exec: nat)                    // leaving; cleanup is asking Docker
    | Cleared(exec: nat)                    // cleanup has its proof; unlinking the record is next

  datatype Broker =
    | Down
    | Recovering(todo: set<nat>, success: bool, cleared: Option<nat>)   // the token whose proof has been seen
    | Serving(failed: bool)

  datatype World = World(
    container: Container, execs: map<nat, Exec>, journal: map<nat, Record>,
    broker: Broker, sessions: map<nat, Session>,
    maker: map<nat, nat>,                   // the session token each exec was created for
    asked: set<nat>)                        // execs whose start was requested

  const FRESH := World(Up, map[], map[], Down, map[], map[], {})

  /** How taking a record away ends: done, done but raising before it is synced, or raising at once. */
  datatype Disk = Synced | Unsynced | Kept

  datatype Action =
    // the broker
    | Start | Serve | Crash
    | RecoverSee(token: nat) | RecoverUnlink(token: nat, disk: Disk) | RecoverFail(token: nat)
    | Accept(token: nat) | CreateExec(token: nat, exec: nat) | SaveExec(token: nat) | StartExec(token: nat)
    | ReadIdentity(token: nat) | SaveProcess(token: nat) | SaveUnsynced(token: nat) | Release(token: nat) | Leave(token: nat)
    | See(token: nat) | Unlink(token: nat, disk: Disk) | Abandon(token: nat)
    // everything else
    | DockerStarts(exec: nat, proc: Proc) | BootstrapRuns(exec: nat) | Ends(exec: nat) | ContainerStops | ContainerStarts | ContainerRemoved

  /** What cleanup accepts as proof, at the moment Docker answers: the exec is not running, or its
      container is gone or stopped. */
  predicate Quiet(w: World, exec: nat) {
    w.container != Up || (exec in w.execs && (w.execs[exec] == Created || w.execs[exec] == Finished))
  }

  predicate At(w: World, token: nat) { token in w.sessions && w.broker.Serving? }

  function Put(w: World, token: nat, s: Session): World { w.(sessions := w.sessions[token := s]) }

  function Write(w: World, token: nat, r: Record): World { w.(journal := w.journal[token := r]) }

  predicate Live(w: World, exec: nat) { exec in w.execs && (w.execs[exec].Booting? || w.execs[exec].Shell?) }

  /** Once the container is down, nothing in it runs. */
  function Halt(execs: map<nat, Exec>): map<nat, Exec> {
    map e | e in execs :: if execs[e] == Created then Created else Finished
  }

  function Unlinked(journal: map<nat, Record>, t: nat, disk: Disk): map<nat, Record> {
    if disk == Kept then journal else journal - {t}
  }

  function Do(w: World, a: Action): World {
    match a
    case Start => if w.broker == Down then w.(broker := Recovering(w.journal.Keys, true, None), sessions := map[]) else w
    case RecoverSee(t) =>
      if w.broker.Recovering? && t in w.broker.todo && w.broker.cleared.None? && t in w.journal && Quiet(w, w.journal[t].exec)
      then w.(broker := w.broker.(cleared := Some(t))) else w
    case RecoverUnlink(t, disk) =>
      if w.broker.Recovering? && w.broker.cleared == Some(t)
      then w.(journal := Unlinked(w.journal, t, disk),
              broker := Recovering(w.broker.todo - {t}, w.broker.success && disk == Synced, None))
      else w
    case RecoverFail(t) =>
      if w.broker.Recovering? && t in w.broker.todo && w.broker.cleared in {None, Some(t)}
      then w.(broker := Recovering(w.broker.todo - {t}, false, None)) else w
    case Serve =>
      if w.broker == Recovering({}, true, None) && w.container == Up then w.(broker := Serving(false)) else w
    case Crash => w.(broker := Down, sessions := map[])
    case Accept(t) =>
      if w.broker == Serving(false) && t !in w.sessions && t !in w.journal then Put(w, t, Admitted) else w
    case CreateExec(t, e) =>
      if At(w, t) && w.sessions[t] == Admitted && e !in w.execs && w.container == Up
      then Put(w.(execs := w.execs[e := Created], maker := w.maker[e := t]), t, Made(e)) else w
    case SaveExec(t) =>
      if At(w, t) && w.sessions[t].Made?
      then Put(Write(w, t, Record(w.sessions[t].exec, None)), t, Saved(w.sessions[t].exec)) else w
    case StartExec(t) =>
      if At(w, t) && w.sessions[t].Saved?
      then Put(w.(asked := w.asked + {w.sessions[t].exec}), t, Asked(w.sessions[t].exec)) else w
    case ReadIdentity(t) =>
      if At(w, t) && w.sessions[t].Asked? && w.sessions[t].exec in w.execs && w.execs[w.sessions[t].exec].Booting?
      then Put(w, t, Reported(w.sessions[t].exec, w.execs[w.sessions[t].exec].proc)) else w
    case SaveProcess(t) =>
      if At(w, t) && w.sessions[t].Reported?
      then
        var s := w.sessions[t];
        Put(Write(w, t, Record(s.exec, Some(s.proc))), t, Named(s.exec, s.proc))
      else w
    case SaveUnsynced(t) =>                      // written and named, but the directory sync raised
      if At(w, t) && w.sessions[t].Made?
      then Put(Write(w, t, Record(w.sessions[t].exec, None)), t, Closing(w.sessions[t].exec))
      else if At(w, t) && w.sessions[t].Reported?
      then Put(Write(w, t, Record(w.sessions[t].exec, Some(w.sessions[t].proc))), t, Closing(w.sessions[t].exec))
      else w
    case Release(t) =>
      if At(w, t) && w.sessions[t].Named?
      then
        var e := w.sessions[t].exec;
        var w := Put(w, t, Talking(e));
        if e in w.execs && w.execs[e].Booting? then w.(execs := w.execs[e := w.execs[e].(released := true)]) else w
      else w
    case Leave(t) =>
      if !At(w, t) || w.sessions[t].Closing? || w.sessions[t].Cleared? then w
      else if w.sessions[t] == Admitted then w.(sessions := w.sessions - {t})
      else Put(w, t, Closing(w.sessions[t].exec))
    case See(t) =>
      if At(w, t) && w.sessions[t].Closing? && Quiet(w, w.sessions[t].exec) then Put(w, t, Cleared(w.sessions[t].exec)) else w
    case Unlink(t, disk) =>                       // a session's own failed unlink fails nothing else
      if At(w, t) && w.sessions[t].Cleared?
      then w.(sessions := w.sessions - {t}, journal := Unlinked(w.journal, t, disk)) else w
    case Abandon(t) =>
      if At(w, t) && (w.sessions[t].Closing? || w.sessions[t].Cleared?)
      then w.(sessions := w.sessions - {t}, broker := Serving(true)) else w
    case DockerStarts(e, proc) =>
      if e in w.asked && e in w.execs && w.execs[e] == Created && w.container == Up
      then w.(execs := w.execs[e := Booting(proc, false)]) else w
    case BootstrapRuns(e) =>
      if e in w.execs && w.execs[e].Booting? && w.execs[e].released && w.container == Up
      then w.(execs := w.execs[e := Shell(w.execs[e].proc)]) else w
    case Ends(e) => if Live(w, e) then w.(execs := w.execs[e := Finished]) else w
    case ContainerStops => if w.container == Up then w.(container := Stopped, execs := Halt(w.execs)) else w
    case ContainerStarts => if w.container == Stopped then w.(container := Up) else w
    case ContainerRemoved => w.(container := Gone, execs := Halt(w.execs))
  }

  function DoAll(w: World, actions: seq<Action>): World {
    if actions == [] then w else Do(DoAll(w, actions[..|actions| - 1]), actions[|actions| - 1])
  }

  lemma DoAllSplits(w: World, a: seq<Action>, b: seq<Action>)
    ensures DoAll(w, a + b) == DoAll(DoAll(w, a), b)
    decreases |b|
  {
    hide Do;
    if b == [] {
      assert a + b == a;
    } else {
      assert (a + b)[..|a + b| - 1] == a + b[..|b| - 1];
      DoAllSplits(w, a, b[..|b| - 1]);
    }
  }

  lemma DoAllFirst(w: World, a: Action, rest: seq<Action>)
    ensures DoAll(w, [a] + rest) == DoAll(Do(w, a), rest)
  {
    hide Do;
    One(w, a);
    DoAllSplits(w, [a], rest);
  }

  lemma One(w: World, a: Action)
    ensures DoAll(w, [a]) == Do(w, a)
  {
    assert [a][..0] == [];
  }

  // ----- invariant -----

  /** A durable record of the exec's own session names exactly this process. */
  predicate Recorded(w: World, exec: nat, proc: Proc) {
    && exec in w.maker && w.maker[exec] in w.journal
    && w.journal[w.maker[exec]] == Record(exec, Some(proc))
  }

  /** An exec that has reported this identity, and can only ever run as it. */
  predicate Reports(w: World, e: nat, proc: Proc) {
    e in w.execs && w.execs[e] != Created && (w.execs[e].Booting? ==> w.execs[e].proc == proc)
  }

  /** Not running the user's shell, and never to be released. */
  predicate Harmless(w: World, e: nat) {
    e in w.execs && !w.execs[e].Shell? && (w.execs[e].Booting? ==> !w.execs[e].released)
  }

  predicate SessionOk(w: World, t: nat, s: Session) {
    && (s != Admitted ==> s.exec in w.execs && s.exec in w.maker && w.maker[s.exec] == t)
    && match s
       case Admitted => t !in w.journal
       case Made(e) => w.execs[e] == Created && e !in w.asked && t !in w.journal
       case Saved(e) => t in w.journal && w.journal[t] == Record(e, None)
       case Asked(e) => t in w.journal && w.journal[t] == Record(e, None)
       case Reported(e, proc) => t in w.journal && w.journal[t] == Record(e, None) && Reports(w, e, proc)
       case Named(e, proc) => Recorded(w, e, proc) && Reports(w, e, proc)
       case Talking(e) => t in w.journal && w.journal[t].exec == e
       case Closing(e) => t in w.journal ==> w.journal[t].exec == e
       case Cleared(e) => (t in w.journal ==> w.journal[t].exec == e) && Harmless(w, e)
  }

  /** A released or running exec is named by the journal. */
  predicate ExecOk(w: World, e: nat, x: Exec) {
    match x
    case Booting(proc, released) => w.container == Up && (released ==> Recorded(w, e, proc))
    case Shell(proc) => w.container == Up && Recorded(w, e, proc)
    case _ => true
  }

  predicate Inv(w: World) {
    && (forall e | e in w.execs :: ExecOk(w, e, w.execs[e]))
    && (forall t | t in w.sessions :: SessionOk(w, t, w.sessions[t]))
    && (forall t | t in w.journal :: w.journal[t].exec in w.maker && w.maker[w.journal[t].exec] == t)
    && w.maker.Keys == w.execs.Keys && w.asked <= w.execs.Keys
    && (w.broker.Recovering? && w.broker.success ==> w.journal.Keys <= w.broker.todo)
    && (w.broker.Recovering? && w.broker.cleared.Some? ==>
          var t := w.broker.cleared.value; t in w.broker.todo && t in w.journal && Harmless(w, w.journal[t].exec))
    && (w.sessions != map[] ==> w.broker.Serving?)
  }

  lemma LifecycleKeeps(w: World, a: Action)
    requires Inv(w) && (a.Start? || a.Serve? || a.Crash?)
    ensures Inv(Do(w, a))
  {
  }

  lemma RecoveringKeeps(w: World, a: Action)
    requires Inv(w) && (a.RecoverSee? || a.RecoverUnlink? || a.RecoverFail?)
    ensures Inv(Do(w, a))
  {
  }

  lemma AcceptingKeeps(w: World, a: Action)
    requires Inv(w) && (a.Accept? || a.StartExec?)
    ensures Inv(Do(w, a))
  {
  }

  lemma CreatingKeeps(w: World, a: Action)
    requires Inv(w) && (a.CreateExec?)
    ensures Inv(Do(w, a))
  {
  }

  lemma SavingKeeps(w: World, a: Action)
    requires Inv(w) && (a.SaveExec?)
    ensures Inv(Do(w, a))
  {
  }

  lemma ReadingKeeps(w: World, a: Action)
    requires Inv(w) && (a.ReadIdentity?)
    ensures Inv(Do(w, a))
  {
  }

  lemma NamingKeeps(w: World, a: Action)
    requires Inv(w) && (a.SaveProcess?)
    ensures Inv(Do(w, a))
  {
  }

  lemma UnsyncedKeeps(w: World, a: Action)
    requires Inv(w) && (a.SaveUnsynced?)
    ensures Inv(Do(w, a))
  {
    hide Quiet, Halt, Live;
  }

  lemma ReleasingKeeps(w: World, a: Action)
    requires Inv(w) && (a.Release?)
    ensures Inv(Do(w, a))
  {
  }

  lemma LeavingKeeps(w: World, a: Action)
    requires Inv(w) && (a.Leave?)
    ensures Inv(Do(w, a))
  {
  }

  lemma CleaningUpKeeps(w: World, a: Action)
    requires Inv(w) && (a.See? || a.Abandon?)
    ensures Inv(Do(w, a))
  {
  }

  lemma UnlinkingKeeps(w: World, a: Action)
    requires Inv(w) && (a.Unlink?)
    ensures Inv(Do(w, a))
  {
    hide Quiet, Halt, Live;
  }

  lemma StartingKeeps(w: World, a: Action)
    requires Inv(w) && (a.DockerStarts?)
    ensures Inv(Do(w, a))
  {
  }

  lemma BootingKeeps(w: World, a: Action)
    requires Inv(w) && (a.BootstrapRuns?)
    ensures Inv(Do(w, a))
  {
  }

  lemma EndingKeeps(w: World, a: Action)
    requires Inv(w) && (a.Ends?)
    ensures Inv(Do(w, a))
  {
  }

  lemma HaltingKeeps(w: World, a: Action)
    requires Inv(w) && (a.ContainerStops? || a.ContainerRemoved?)
    ensures Inv(Do(w, a))
  {
    HaltStops(w.execs);
    hide Halt;
  }

  lemma HaltStops(execs: map<nat, Exec>)
    ensures Halt(execs).Keys == execs.Keys
    ensures forall e | e in execs :: Halt(execs)[e] == if execs[e] == Created then Created else Finished
  {
  }

  lemma RestartingKeeps(w: World, a: Action)
    requires Inv(w) && a.ContainerStarts?
    ensures Inv(Do(w, a))
  {
  }

  lemma StepKeeps(w: World, a: Action)
    requires Inv(w)
    ensures Inv(Do(w, a))
  {
    hide Inv, Do;
    match a
    case Start | Serve | Crash => LifecycleKeeps(w, a);
    case RecoverSee(_) => RecoveringKeeps(w, a);
    case RecoverUnlink(_, _) => RecoveringKeeps(w, a);
    case RecoverFail(_) => RecoveringKeeps(w, a);
    case Accept(_) => AcceptingKeeps(w, a);
    case StartExec(_) => AcceptingKeeps(w, a);
    case CreateExec(_, _) => CreatingKeeps(w, a);
    case SaveExec(_) => SavingKeeps(w, a);
    case ReadIdentity(_) => ReadingKeeps(w, a);
    case SaveProcess(_) => NamingKeeps(w, a);
    case SaveUnsynced(_) => UnsyncedKeeps(w, a);
    case Release(_) => ReleasingKeeps(w, a);
    case Leave(_) => LeavingKeeps(w, a);
    case See(_) => CleaningUpKeeps(w, a);
    case Unlink(_, _) => UnlinkingKeeps(w, a);
    case Abandon(_) => CleaningUpKeeps(w, a);
    case DockerStarts(_, _) => StartingKeeps(w, a);
    case BootstrapRuns(_) => BootingKeeps(w, a);
    case Ends(_) => EndingKeeps(w, a);
    case ContainerStops | ContainerRemoved => HaltingKeeps(w, a);
    case ContainerStarts => RestartingKeeps(w, a);
  }

  lemma {:induction false} RunKeeps(w: World, actions: seq<Action>)
    requires Inv(w)
    ensures Inv(DoAll(w, actions))
  {
    hide Inv, Do;
    if actions != [] {
      RunKeeps(w, actions[..|actions| - 1]);
      StepKeeps(DoAll(w, actions[..|actions| - 1]), actions[|actions| - 1]);
    }
  }

  // ----- theorems over every run, crashes included -----

  /** No user shell runs unless a durable journal record already names its exec, pid and start. */
  lemma NoUnnamedShell(actions: seq<Action>, exec: nat)
    ensures var w := DoAll(FRESH, actions);
            exec in w.execs && w.execs[exec].Shell? ==> Recorded(w, exec, w.execs[exec].proc)
  {
    RunKeeps(FRESH, actions);
  }

  /** The exec whose quietness the cleanup of this token has seen, between its proof and its unlink. */
  function Clearing(w: World, t: nat): Option<nat> {
    if w.broker.Serving? && t in w.sessions && w.sessions[t].Cleared? then Some(w.sessions[t].exec)
    else if w.broker.Recovering? && w.broker.cleared == Some(t) && t in w.journal then Some(w.journal[t].exec)
    else None
  }

  lemma ClearingStep(w: World, a: Action, t: nat)
    requires Clearing(Do(w, a), t).Some? && (w.sessions != map[] ==> w.broker.Serving?)
    ensures var e := Clearing(Do(w, a), t).value;
            Clearing(w, t) == Some(e) || ((a == See(t) || a == RecoverSee(t)) && Quiet(w, e))
  {
    hide Quiet, Halt, Live;
  }

  predicate Unlinking(a: Action, t: nat) { (a.Unlink? || a.RecoverUnlink?) && a.token == t && a.disk != Kept }

  lemma UnlinkingStep(w: World, a: Action, t: nat)
    requires t in w.journal && t !in Do(w, a).journal
    ensures Unlinking(a, t)
  {
    hide Quiet;
  }

  /** Which steps take a record out of the journal. */
  lemma OnlyUnlinks(w: World, a: Action, t: nat)
    requires Inv(w) && t in w.journal && t !in Do(w, a).journal
    ensures Clearing(w, t) == Some(w.journal[t].exec) && Harmless(w, w.journal[t].exec)
    ensures Unlinking(a, t)
  {
    UnlinkingStep(w, a, t);
    hide Quiet, Reports, Recorded, ExecOk, Harmless;
  }

  lemma OnlyServing(w: World)
    requires Inv(w)
    ensures w.sessions != map[] ==> w.broker.Serving?
  {
  }

  lemma NothingCleared(t: nat)
    ensures Clearing(FRESH, t).None?
  {
  }

  lemma FreshIsSound()
    ensures Inv(FRESH)
  {
  }

  /** The index of the step at which the proof of a cleanup under way was seen. */
  lemma {:induction false} ProofWasSeen(actions: seq<Action>, t: nat) returns (n: nat)
    requires Clearing(DoAll(FRESH, actions), t).Some?
    ensures var e := Clearing(DoAll(FRESH, actions), t);
            && n < |actions| && (actions[n] == See(t) || actions[n] == RecoverSee(t))
            && Quiet(DoAll(FRESH, actions[..n]), e.value)
            && forall m | n < m <= |actions| :: Clearing(DoAll(FRESH, actions[..m]), t) == e
  {
    hide Do, Inv, Quiet, Clearing;
    NothingCleared(t);
    assert actions[..|actions|] == actions && actions != [];
    var front, last := actions[..|actions| - 1], actions[|actions| - 1];
    FreshIsSound();
    RunKeeps(FRESH, front);
    OnlyServing(DoAll(FRESH, front));
    ClearingStep(DoAll(FRESH, front), last, t);
    var e := Clearing(DoAll(FRESH, actions), t);
    if Clearing(DoAll(FRESH, front), t) == e {
      n := ProofWasSeen(front, t);
      assert front[..n] == actions[..n];
      forall m | n < m <= |actions|
        ensures Clearing(DoAll(FRESH, actions[..m]), t) == e
      {
        if m < |actions| {
          assert front[..m] == actions[..m];
        }
      }
    } else {
      n := |front|;
    }
  }

  /** In every run, a record disappears only in a cleanup that, earlier and without a break since, saw
      the record's exec not running or its container gone or stopped.  Docker, the bootstrap and the
      container may act in between; the exec is still not, and never becomes, a user's shell. */
  lemma RemovalIsProven(actions: seq<Action>, a: Action, t: nat) returns (n: nat)
    requires t in DoAll(FRESH, actions).journal && t !in Do(DoAll(FRESH, actions), a).journal
    ensures var w := DoAll(FRESH, actions);
            var e := w.journal[t].exec;
            && n < |actions| && (actions[n] == See(t) || actions[n] == RecoverSee(t))
            && Quiet(DoAll(FRESH, actions[..n]), e)
            && (forall m | n < m <= |actions| :: Clearing(DoAll(FRESH, actions[..m]), t) == Some(e))
            && Harmless(w, e) && (Unlinking(a, t))
  {
    RunKeeps(FRESH, actions);
    OnlyUnlinks(DoAll(FRESH, actions), a, t);
    n := ProofWasSeen(actions, t);
  }

  // ----- how stale a proof can be -----

  /** Quiet, and nothing left that could start it. */
  predicate QuietForGood(w: World, e: nat) {
    || w.container == Gone
    || (e in w.execs && (w.execs[e] == Finished || (w.execs[e] == Created && e !in w.asked)))
  }

  /** Also not about to be asked for. */
  predicate Unstartable(w: World, e: nat) {
    QuietForGood(w, e) && e in w.execs && Unstarted(w, e)
  }

  lemma UnstartableIsQuiet(w: World, e: nat)
    requires Unstartable(w, e)
    ensures Quiet(w, e)
  {
  }

  predicate Unstarted(w: World, e: nat) { forall t | t in w.sessions :: w.sessions[t] != Made(e) && w.sessions[t] != Saved(e) }

  lemma NobodyStarts(w: World, a: Action, e: nat)
    requires e in w.execs && Unstarted(w, e)
    ensures Unstarted(Do(w, a), e) && (e in Do(w, a).asked ==> e in w.asked)
  {
    hide Halt, Quiet, Unlinked, Live;
  }

  lemma StaysQuiet(w: World, a: Action, e: nat)
    requires e in w.execs && QuietForGood(w, e) && (e in Do(w, a).asked ==> e in w.asked)
    ensures e in Do(w, a).execs && QuietForGood(Do(w, a), e)
  {
    if a.DockerStarts? || a.BootstrapRuns? || a.Ends? || a.CreateExec? || a.ContainerStops? || a.ContainerRemoved? || a.ContainerStarts? {
      DockerStaysQuiet(w, a, e);
    } else {
      OthersStayQuiet(w, a, e);
    }
    hide Do, QuietForGood;
  }

  lemma DockerStaysQuiet(w: World, a: Action, e: nat)
    requires e in w.execs && QuietForGood(w, e) && (e in Do(w, a).asked ==> e in w.asked)
    requires a.DockerStarts? || a.BootstrapRuns? || a.Ends? || a.CreateExec? || a.ContainerStops? || a.ContainerRemoved? || a.ContainerStarts?
    ensures e in Do(w, a).execs && QuietForGood(Do(w, a), e)
  {
    HaltStops(w.execs);
    hide Halt, Quiet, Unlinked;
  }

  lemma OthersStayQuiet(w: World, a: Action, e: nat)
    requires e in w.execs && QuietForGood(w, e) && (e in Do(w, a).asked ==> e in w.asked)
    requires !(a.DockerStarts? || a.BootstrapRuns? || a.Ends? || a.CreateExec? || a.ContainerStops? || a.ContainerRemoved?
               || a.ContainerStarts?)
    ensures e in Do(w, a).execs && QuietForGood(Do(w, a), e)
  {
    hide Halt, Quiet, Unlinked;
  }

  lemma UnstartableStep(w: World, a: Action, e: nat)
    requires Unstartable(w, e)
    ensures Unstartable(Do(w, a), e)
  {
    NobodyStarts(w, a, e);
    StaysQuiet(w, a, e);
    hide Do, QuietForGood, Unstarted;
  }

  lemma {:induction false} UnstartableRun(w: World, actions: seq<Action>, e: nat)
    requires Unstartable(w, e)
    ensures Unstartable(DoAll(w, actions), e)
  {
    if actions != [] {
      var front := actions[..|actions| - 1];
      UnstartableRun(w, front, e);
      hide Do, Unstartable;
      UnstartableStep(DoAll(w, front), actions[|actions| - 1], e);
    }
  }

  lemma ClearingIsUnstartable(w: World, t: nat, e: nat)
    requires Inv(w) && Clearing(w, t) == Some(e) && QuietForGood(w, e)
    ensures Unstartable(w, e)
  {
    hide Quiet, Reports, Recorded, ExecOk;
  }

  /** What Docker may still do to an exec that was asked for and not started. */
  function LateStart(w: World, e: nat): seq<Action> {
    if e in w.execs && w.execs[e].Booting? then []
    else (if w.container == Stopped then [ContainerStarts] else []) + [DockerStarts(e, Proc(2, 1))]
  }

  lemma Boots(w: World, e: nat)
    requires e in w.execs && w.execs[e] == Created && e in w.asked && w.container == Up
    ensures !Quiet(Do(w, DockerStarts(e, Proc(2, 1))), e)
  {
  }

  lemma Restarts(w: World)
    requires w.container == Stopped
    ensures Do(w, ContainerStarts) == w.(container := Up)
  {
  }

  lemma LateStartBoots(w: World, t: nat, e: nat)
    requires Inv(w) && Clearing(w, t) == Some(e) && !QuietForGood(w, e)
    ensures !Quiet(DoAll(w, LateStart(w, e)), e)
  {
    hide Do, Inv, Clearing;
    ClearingIsHarmless(w, t, e);
    if !w.execs[e].Booting? {
      var boot := DockerStarts(e, Proc(2, 1));
      if w.container == Stopped {
        Restarts(w);
        DoAllFirst(w, ContainerStarts, [boot]);
        One(w.(container := Up), boot);
        Boots(w.(container := Up), e);
      } else {
        assert [] + [boot] == [boot];
        One(w, boot);
        Boots(w, e);
      }
    }
  }

  lemma ClearingIsHarmless(w: World, t: nat, e: nat)
    requires Inv(w) && Clearing(w, t) == Some(e)
    ensures Harmless(w, e) && (w.execs[e].Booting? ==> w.container == Up)
  {
    hide Quiet, Reports, Recorded;
  }

  /** A proof is good for ever if and only if the container is gone, the exec has finished, or it was
      never asked for.  An exec seen never started while its start is still on the way to Docker, or a
      stopped container, can be overtaken before the unlink. */
  lemma ProofStandsExact(w: World, t: nat, e: nat)
    requires Inv(w) && Clearing(w, t) == Some(e)
    ensures (forall actions: seq<Action> :: Quiet(DoAll(w, actions), e)) <==> QuietForGood(w, e)
  {
    if QuietForGood(w, e) {
      forall actions: seq<Action>
        ensures Quiet(DoAll(w, actions), e)
      {
        ClearingIsUnstartable(w, t, e);
        UnstartableRun(w, actions, e);
        UnstartableIsQuiet(DoAll(w, actions), e);
      }
    } else {
      LateStartBoots(w, t, e);
    }
  }

  const ASKED: seq<Action> := [Start] + ([Serve] + ([Accept(0)] + ([CreateExec(0, 7)] + ([SaveExec(0)] + ([StartExec(0)] + [Leave(0)])))))

  function Early(sessions: map<nat, Session>): World { World(Up, map[], map[], Serving(false), sessions, map[], {}) }

  function Later(journal: map<nat, Record>, s: Session, asked: set<nat>): World {
    World(Up, map[7 := Created], journal, Serving(false), map[0 := s], map[7 := 0], asked)
  }

  lemma Opens()
    ensures Do(Do(FRESH, Start), Serve) == Early(map[])
  {
    assert FRESH.journal.Keys == {};
    hide Halt, Quiet, Live;
  }

  lemma Admits()
    ensures Do(Do(Early(map[]), Accept(0)), CreateExec(0, 7)) == Later(map[], Made(7), {})
  {
    hide Halt, Quiet, Live;
    assert Do(Early(map[]), Accept(0)) == Early(map[0 := Admitted]);
  }

  lemma Saves()
    ensures Do(Later(map[], Made(7), {}), SaveExec(0)) == Later(map[0 := Record(7, None)], Saved(7), {})
  {
    hide Halt, Quiet, Live;
  }

  lemma Asks()
    ensures Do(Later(map[0 := Record(7, None)], Saved(7), {}), StartExec(0)) == Later(map[0 := Record(7, None)], Asked(7), {7})
  {
    hide Halt, Quiet, Live;
  }

  lemma Leaves()
    ensures Do(Later(map[0 := Record(7, None)], Asked(7), {7}), Leave(0)) == Later(map[0 := Record(7, None)], Closing(7), {7})
  {
    hide Halt, Quiet, Live;
  }

  /** A session that asked for its shell and left before Docker acted on it. */
  lemma AskedWorld()
    ensures DoAll(FRESH, ASKED) == Later(map[0 := Record(7, None)], Closing(7), {7})
  {
    hide Do;
    var rest := [SaveExec(0)] + ([StartExec(0)] + [Leave(0)]);
    DoAllFirst(FRESH, Start, [Serve] + ([Accept(0)] + ([CreateExec(0, 7)] + rest)));
    DoAllFirst(Do(FRESH, Start), Serve, [Accept(0)] + ([CreateExec(0, 7)] + rest));
    Opens();
    DoAllFirst(Early(map[]), Accept(0), [CreateExec(0, 7)] + rest);
    DoAllFirst(Do(Early(map[]), Accept(0)), CreateExec(0, 7), rest);
    Admits();
    DoAllFirst(Later(map[], Made(7), {}), SaveExec(0), [StartExec(0)] + [Leave(0)]);
    Saves();
    DoAllFirst(Later(map[0 := Record(7, None)], Saved(7), {}), StartExec(0), [Leave(0)]);
    Asks();
    One(Later(map[0 := Record(7, None)], Asked(7), {7}), Leave(0));
    Leaves();
  }

  lemma Sees()
    ensures Do(Later(map[0 := Record(7, None)], Closing(7), {7}), See(0)) == Later(map[0 := Record(7, None)], Cleared(7), {7})
  {
    hide Halt, Live;
  }

  lemma BootsAnyway()
    ensures var w := Do(Later(map[0 := Record(7, None)], Cleared(7), {7}), DockerStarts(7, Proc(2, 1)));
            && w.container == Up && w.execs == map[7 := Booting(Proc(2, 1), false)] && w.broker == Serving(false)
            && w.journal == map[0 := Record(7, None)] && w.sessions == map[0 := Cleared(7)]
  {
    hide Halt, Quiet, Live;
  }

  lemma UnlinksAnyway(w: World)
    requires w.broker == Serving(false) && w.journal == map[0 := Record(7, None)] && w.sessions == map[0 := Cleared(7)]
    ensures 0 !in Do(w, Unlink(0, Synced)).journal
  {
    hide Halt, Quiet, Live;
  }

  /** The proof can be stale: an exec seen never started begins booting before its record is unlinked. */
  lemma RemovalMayBeOvertaken()
    ensures var w := DoAll(DoAll(FRESH, ASKED), [See(0)] + [DockerStarts(7, Proc(2, 1))]);
            && 0 in w.journal && 0 !in Do(w, Unlink(0, Synced)).journal && !Quiet(w, 7)
  {
    hide Do;
    var w := DoAll(FRESH, ASKED);
    AskedWorld();
    DoAllFirst(w, See(0), [DockerStarts(7, Proc(2, 1))]);
    Sees();
    One(Do(w, See(0)), DockerStarts(7, Proc(2, 1)));
    BootsAnyway();
    UnlinksAnyway(Do(Do(w, See(0)), DockerStarts(7, Proc(2, 1))));
  }

  /** Sessions are accepted only after a recovery that cleared every record. */
  lemma ServesOnlyAfterRecovery(w: World, a: Action)
    requires Inv(w) && !w.broker.Serving? && Do(w, a).broker.Serving?
    ensures w.journal == map[] && w.container == Up
  {
  }

  /** An exec that no record and no session refers to any more. */
  predicate Retired(w: World, e: nat) {
    && e in w.execs && e in w.maker
    && (w.maker[e] in w.journal ==> w.journal[w.maker[e]].exec != e)
    && (forall t | t in w.sessions && w.sessions[t] != Admitted :: w.sessions[t].exec != e)
  }

  lemma RemovedIsRetired(w: World, a: Action, token: nat)
    requires Inv(w) && token in w.journal && token !in Do(w, a).journal
    ensures Retired(Do(w, a), w.journal[token].exec)
  {
    OnlyUnlinks(w, a, token);
    hide Quiet, Reports, Recorded, Harmless;
  }

  lemma RetiredStep(w: World, a: Action, e: nat)
    requires Inv(w) && Retired(w, e)
    ensures Retired(Do(w, a), e)
  {
    hide Quiet, Reports;
  }

  /** Once its record is removed, that exec never runs a user shell again, even if Docker starts
      it late. */
  lemma {:induction false} RetiredForever(w: World, actions: seq<Action>, e: nat)
    requires Inv(w) && Retired(w, e)
    ensures var v := DoAll(w, actions); Retired(v, e) && e in v.execs && !v.execs[e].Shell?
  {
    RunKeeps(w, actions);
    if actions != [] {
      var front := actions[..|actions| - 1];
      RetiredForever(w, front, e);
      RunKeeps(w, front);
      hide Do;
      RetiredStep(DoAll(w, front), actions[|actions| - 1], e);
    }
  }
}
