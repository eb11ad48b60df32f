/**
Kill against a running supervisor, as interleaved steps.  `kill` takes the supervisor's state
lock, raises the cancel flag and cancels the channel under the channel's own lock; the runner
takes the state lock to dispatch the helper and again to publish, and the channel's lock to
commit and run the child.  Any number of kills may be under way, any action may come next, and
an interrupt may strike the runner anywhere between sealing the channel and leaving publication.
*/
module HelperKill {
  import opened Base

  datatype Event =
    | Commit | ExecRan | CancelTook | FlagRaised(k: nat) | KillDone(k: nat)
    | Published(success: bool) | Admitted | Interrupted | Overturned

  /** The record that `run_fake` leaves behind; the fallback never counts as a success. */
  datatype Ending = Success | Failure | Fallback

  datatype Chan = Chan(closed: bool, cancelled: bool)

  datatype Holder = Nobody | Runner | Killer(k: nat)

  datatype Runner =
    | Off | Prepared | Dispatched | Committing | Polling | Failing
    | Sealed(won: bool) | Publishing(success: bool)
    | Decided                              // the terminal is set, the state lock still held
    | Leaving                              // the lock is free, the protected block not yet left
    | Overturning                          // the handler: put the fallback in place
    | Finished

  datatype Killing = Entered | Flagged | Called

  datatype State = State(
    flag: bool, stateLock: Holder, controlBusy: bool, channel: Option<Chan>,
    terminal: Option<Ending>, runner: Runner, killers: map<nat, Killing>, log: seq<Event>)

  const START := State(false, Nobody, false, None, None, Off, map[], [])

  datatype Action =
    | MakeChannel | HelperDispatch | ChildCommit | ChildExec | GiveUp | Seal | BeginPublish | SetTerminal
    | ReleaseState | LeaveBlock | Interrupt | PutFallback
    | KillEnter(k: nat) | KillFlag(k: nat) | KillCancel(k: nat) | KillLeave(k: nat)
    | Admit

  predicate Kills(s: State, k: nat, at: Killing) { k in s.killers && s.killers[k] == at }

  /** The runner holds the state lock. */
  predicate Publishes(r: Runner) { r.Publishing? || r == Decided }

  /** An action that is not enabled (a lock is held, the thread is elsewhere) changes nothing. */
  function Do(s: State, a: Action): State {
    match a
    case MakeChannel =>
      if s.runner == Off && s.terminal.None? then s.(channel := Some(Chan(false, false)), runner := Prepared) else s
    case HelperDispatch =>
      if s.runner == Prepared && s.stateLock == Nobody
      then s.(runner := if s.flag then Failing else Dispatched) else s
    case ChildCommit =>
      if s.runner == Dispatched && !s.controlBusy && s.channel.Some? then
        if s.channel.value.closed || s.channel.value.cancelled then s.(runner := Failing)
        else s.(controlBusy := true, runner := Committing, log := s.log + [Commit])
      else s
    case ChildExec =>
      if s.runner == Committing then s.(controlBusy := false, runner := Polling, log := s.log + [ExecRan]) else s
    case GiveUp =>
      if s.runner in {Prepared, Dispatched, Polling} then s.(runner := Failing)
      else if s.runner == Committing then s.(controlBusy := false, runner := Failing)   // the exec itself raised
      else s
    case Seal =>
      if s.runner in {Polling, Failing} && !s.controlBusy && s.channel.Some?
      then s.(channel := Some(s.channel.value.(closed := true)), runner := Sealed(s.runner == Polling)) else s
    case BeginPublish =>
      if s.runner.Sealed? && s.stateLock == Nobody
      then s.(stateLock := Runner, runner := Publishing(s.runner.won && !s.flag)) else s
    case SetTerminal =>
      if s.runner.Publishing?
      then s.(terminal := Some(if s.runner.success then Success else Failure), runner := Decided,
              log := s.log + [Published(s.runner.success)])
      else s
    case ReleaseState => if s.runner == Decided then s.(stateLock := Nobody, runner := Leaving) else s
    case LeaveBlock => if s.runner == Leaving then s.(runner := Finished) else s
    case Interrupt =>
      if s.runner.Sealed? || s.runner.Publishing? || s.runner in {Decided, Leaving}
      then s.(stateLock := if Publishes(s.runner) then Nobody else s.stateLock, runner := Overturning,
              log := s.log + [Interrupted])
      else s
    case PutFallback =>
      if s.runner == Overturning && s.stateLock == Nobody
      then s.(terminal := Some(Fallback), runner := Finished, log := s.log + [Overturned]) else s
    case KillEnter(k) =>
      if k !in s.killers && s.stateLock == Nobody
      then s.(stateLock := Killer(k), killers := s.killers[k := Entered]) else s
    case KillFlag(k) =>
      if Kills(s, k, Entered)
      then s.(flag := true, killers := s.killers[k := Flagged], log := s.log + [FlagRaised(k)]) else s
    case KillCancel(k) =>
      if Kills(s, k, Flagged) && !s.controlBusy then
        var s := s.(killers := s.killers[k := Called]);
        if s.terminal.None? && s.channel.Some? && !s.channel.value.closed && !s.channel.value.cancelled
        then s.(channel := Some(s.channel.value.(cancelled := true)), log := s.log + [CancelTook])
        else s
      else s
    case KillLeave(k) =>
      if Kills(s, k, Called)
      then s.(stateLock := Nobody, killers := s.killers - {k}, log := s.log + [KillDone(k)]) else s
    case Admit =>
      if s.terminal == Some(Success) && !s.flag then s.(log := s.log + [Admitted]) else s
  }

  function DoAll(s: State, actions: seq<Action>): State {
    if actions == [] then s else Do(DoAll(s, actions[..|actions| - 1]), actions[|actions| - 1])
  }

  // ----- what a history may look like -----

  predicate Kill?(e: Event) { e.FlagRaised? || e.KillDone? }

  /** `later` may not follow `earlier`. */
  predicate Excludes(earlier: Event, later: Event) {
    || (earlier == CancelTook && (later == Commit || later == ExecRan))
    || (Kill?(earlier) && (later == Published(true) || later == Admitted))
    || (earlier.Published? && later.Published?)
    || (earlier == Overturned && (later.Published? || later == Admitted || later == Overturned))
  }

  /** What must already have happened before an event. */
  predicate Follows(log: seq<Event>, e: Event) {
    match e
    case ExecRan => Commit in Seen(log)
    case Admitted => Published(true) in Seen(log)
    case KillDone(k) => FlagRaised(k) in Seen(log)
    case Overturned => Interrupted in Seen(log)
    case _ => true
  }

  predicate Linear(log: seq<Event>) {
    && (forall i, j | 0 <= i < j < |log| :: !Excludes(log[i], log[j]))
    && (forall j | 0 <= j < |log| :: Follows(log[..j], log[j]))
  }

  function Seen(log: seq<Event>): set<Event> { set e | e in log }

  predicate Inv(s: State) {
    var seen := Seen(s.log);
    && Linear(s.log)
    && (forall k | k in s.killers :: s.stateLock == Killer(k))
    && (s.stateLock.Killer? ==> s.stateLock.k in s.killers)
    && (Publishes(s.runner) <==> s.stateLock == Runner)
    && (s.controlBusy <==> s.runner == Committing)
    && (forall e | e in seen && Kill?(e) :: s.flag)
    && (s.runner.Publishing? && s.runner.success ==> !s.flag)
    && (forall k | k in s.killers && s.killers[k] != Entered :: FlagRaised(k) in seen)
    && (forall e | e in seen && e.Published? :: s.terminal.Some?)
    && (s.terminal == Some(Success) ==> Published(true) in seen)
    && (s.terminal == Some(Failure) ==> Published(false) in seen)
    && (s.terminal == Some(Fallback) <==> Overturned in seen)
    && (s.terminal.Some? ==> s.runner in {Decided, Leaving, Overturning, Finished})
    && (s.runner in {Decided, Leaving, Finished} ==> s.terminal.Some?)
    && (s.runner == Overturning ==> Interrupted in seen)
    && (s.terminal == Some(Fallback) ==> s.runner == Finished)
    && (CancelTook in seen ==> s.channel.Some? && s.channel.value.cancelled)
    && (s.runner == Committing ==> Commit in seen && CancelTook !in seen)
    && (s.runner == Off ==> s.channel.None?)
  }

  lemma Append(log: seq<Event>, e: Event)
    requires Linear(log) && Follows(log, e)
    requires forall d | d in Seen(log) :: !Excludes(d, e)
    ensures Linear(log + [e]) && Seen(log + [e]) == Seen(log) + {e}
  {
    var longer := log + [e];
    forall j | 0 <= j < |longer|
      ensures Follows(longer[..j], longer[j])
    {
      assert longer[..j] == log[..j];
    }
  }

  lemma QuietStepKeeps(s: State, a: Action)
    requires Inv(s) && Do(s, a).log == s.log
    ensures Inv(Do(s, a))
  {
    hide Linear, Excludes, Follows;
  }

  lemma RunnerStepKeeps(s: State, a: Action)
    requires Inv(s) && (a.ChildCommit? || a.ChildExec? || a.SetTerminal? || a.Interrupt? || a.PutFallback? || a.Admit?)
    requires Do(s, a).log != s.log
    ensures Inv(Do(s, a))
  {
    hide Linear, Seen;
    var e := Do(s, a).log[|s.log|];
    assert Do(s, a).log == s.log + [e];
    Append(s.log, e);
  }

  lemma KillerStepKeeps(s: State, a: Action)
    requires Inv(s) && (a.KillFlag? || a.KillCancel? || a.KillLeave?) && Do(s, a).log != s.log
    ensures Inv(Do(s, a))
  {
    hide Linear, Seen;
    var e := Do(s, a).log[|s.log|];
    assert Do(s, a).log == s.log + [e];
    assert a.KillLeave? ==> Kill?(FlagRaised(a.k));
    Append(s.log, e);
  }

  lemma TerminalStep(s: State, a: Action)
    requires Inv(s) && s.terminal.Some?
    ensures Do(s, a).terminal == s.terminal || (Do(s, a).terminal == Some(Fallback) && a == PutFallback && s.runner == Overturning)
    ensures s.runner == Finished ==> Do(s, a).terminal == s.terminal && Do(s, a).runner == Finished
  {
    hide Linear, Seen;
  }

  /** Every step keeps the order of effects; a terminal, once set, is kept or gives way to the fallback
      of an interrupted runner. */
  lemma StepKeeps(s: State, a: Action)
    requires Inv(s)
    ensures Inv(Do(s, a))
    ensures s.terminal.Some? ==> Do(s, a).terminal == s.terminal || (Do(s, a).terminal == Some(Fallback) && s.runner == Overturning)
  {
    if Do(s, a).log == s.log {
      QuietStepKeeps(s, a);
    } else if a.KillFlag? || a.KillCancel? || a.KillLeave? {
      KillerStepKeeps(s, a);
    } else {
      RunnerStepKeeps(s, a);
    }
    if s.terminal.Some? {
      TerminalStep(s, a);
    }
  }

  lemma {:induction false} RunKeeps(s: State, actions: seq<Action>)
    requires Inv(s)
    ensures Inv(DoAll(s, actions))
  {
    hide Inv, Do;
    if actions != [] {
      RunKeeps(s, actions[..|actions| - 1]);
      StepKeeps(DoAll(s, actions[..|actions| - 1]), actions[|actions| - 1]);
    }
  }

  /** In every interleaving: the child runs only under a commit that no channel cancel precedes;
      a kill that raised its flag before publication means no success is published; a kill after
      it means nothing is admitted any more; there is at most one publication, and nothing is admitted
      once an interrupt has put the fallback over it. */
  lemma KillLinearizes(actions: seq<Action>)
    ensures Inv(DoAll(START, actions)) && Linear(DoAll(START, actions).log)
  {
    RunKeeps(START, actions);
  }

  lemma {:induction false} FinishedStays(s: State, actions: seq<Action>)
    requires Inv(s) && s.runner == Finished
    ensures DoAll(s, actions).terminal == s.terminal && DoAll(s, actions).runner == Finished
  {
    if actions != [] {
      hide Inv, Do;
      var front := actions[..|actions| - 1];
      FinishedStays(s, front);
      RunKeeps(s, front);
      TerminalStep(DoAll(s, front), actions[|actions| - 1]);
      FinishedHasTerminal(DoAll(s, front));
    }
  }

  lemma FinishedHasTerminal(s: State)
    requires Inv(s) && s.runner == Finished
    ensures s.terminal.Some?
  {
  }

  /** How an interrupt ends, with whoever holds the state lock let out first. */
  function Overturn(k: nat): seq<Action> {
    [Interrupt] + ([KillFlag(k)] + ([KillCancel(k)] + ([KillLeave(k)] + [PutFallback])))
  }

  lemma DoAllFirst(s: State, a: Action, rest: seq<Action>)
    ensures DoAll(s, [a] + rest) == DoAll(Do(s, a), rest)
    decreases |rest|
  {
    hide Do;
    var all := [a] + rest;
    if rest == [] {
      assert all == [a] && all[..0] == [];
    } else {
      assert all[..|all| - 1] == [a] + rest[..|rest| - 1];
      DoAllFirst(s, a, rest[..|rest| - 1]);
    }
  }

  lemma OverturnUnfolds(s: State, k: nat)
    ensures DoAll(s, Overturn(k)) == Do(Do(Do(Do(Do(s, Interrupt), KillFlag(k)), KillCancel(k)), KillLeave(k)), PutFallback)
  {
    hide Do;
    DoAllFirst(s, Interrupt, [KillFlag(k)] + ([KillCancel(k)] + ([KillLeave(k)] + [PutFallback])));
    var s1 := Do(s, Interrupt);
    DoAllFirst(s1, KillFlag(k), [KillCancel(k)] + ([KillLeave(k)] + [PutFallback]));
    var s2 := Do(s1, KillFlag(k));
    DoAllFirst(s2, KillCancel(k), [KillLeave(k)] + [PutFallback]);
    var s3 := Do(s2, KillCancel(k));
    DoAllFirst(s3, KillLeave(k), [PutFallback]);
    assert [PutFallback][..0] == [];
  }

  lemma KillerLeaves(s: State, k: nat)
    requires s.runner == Overturning && !s.controlBusy
    requires s.stateLock == Nobody || (s.stateLock == Killer(k) && k in s.killers)
    requires s.stateLock == Nobody ==> k !in s.killers
    ensures var v := Do(Do(Do(s, KillFlag(k)), KillCancel(k)), KillLeave(k)); v.runner == Overturning && v.stateLock == Nobody
  {
    var s1 := Do(s, KillFlag(k));
    assert s1.runner == Overturning && s1.stateLock == s.stateLock && !s1.controlBusy && (k in s1.killers <==> k in s.killers);
    assert k in s1.killers ==> s1.killers[k] != Entered;
    var s2 := Do(s1, KillCancel(k));
    assert s2.runner == Overturning && s2.stateLock == s.stateLock && (k in s2.killers ==> s2.killers[k] == Called);
  }

  lemma InterruptLeads(s: State, k: nat)
    requires Inv(s) && s.terminal.Some? && s.runner != Finished && (s.stateLock.Killer? ==> k == s.stateLock.k)
    ensures var v := Do(s, Interrupt);
            && v.runner == Overturning && !v.controlBusy && (v.stateLock == Nobody ==> k !in v.killers)
            && (v.stateLock == Nobody || (v.stateLock == Killer(k) && k in v.killers))
  {
    hide Linear, Seen;
  }

  lemma OverturnSucceeds(s: State, k: nat)
    requires Inv(s) && s.terminal.Some? && s.runner != Finished && (s.stateLock.Killer? ==> k == s.stateLock.k)
    ensures DoAll(s, Overturn(k)).terminal == Some(Fallback)
  {
    OverturnUnfolds(s, k);
    InterruptLeads(s, k);
    KillerLeaves(Do(s, Interrupt), k);
    hide Inv;
  }

  /** Exactly when a visible terminal is final: in every reachable state it is the same in every
      continuation if and only if the runner has left the block that published it.  Until then an
      interrupt puts the fallback over it, a success that was already admitted included. */
  lemma TerminalIsFinal(s: State)
    requires Inv(s) && s.terminal.Some?
    ensures (forall actions: seq<Action> :: DoAll(s, actions).terminal == s.terminal) <==> s.runner == Finished
  {
    if s.runner == Finished {
      forall actions: seq<Action>
        ensures DoAll(s, actions).terminal == s.terminal
      {
        FinishedStays(s, actions);
      }
    } else {
      var k := if s.stateLock.Killer? then s.stateLock.k else 0;
      OverturnSucceeds(s, k);
      assert s.terminal != Some(Fallback);
    }
  }

  /** Whatever replaces a terminal is the fallback: no run ever shows two different outcomes that count. */
  lemma {:induction false} OnlyTheFallbackReplaces(s: State, actions: seq<Action>)
    requires Inv(s) && s.terminal.Some?
    ensures DoAll(s, actions).terminal == s.terminal || DoAll(s, actions).terminal == Some(Fallback)
  {
    if actions != [] {
      hide Inv, Do;
      var front := actions[..|actions| - 1];
      OnlyTheFallbackReplaces(s, front);
      RunKeeps(s, front);
      TerminalStep(DoAll(s, front), actions[|actions| - 1]);
    }
  }

  const WON: seq<Action> :=
    [MakeChannel] + ([HelperDispatch] + ([ChildCommit] + ([ChildExec] + ([Seal] + ([BeginPublish] + ([SetTerminal] + [Admit]))))))

  /** The window is real: a success is admitted and then replaced. */
  lemma AdmittedThenOverturned()
    ensures Admitted in Seen(DoAll(START, WON).log) && DoAll(START, WON).terminal == Some(Success)
    ensures DoAll(DoAll(START, WON), Overturn(0)).terminal == Some(Fallback)
  {
    WonUnfolds();
    var s := Do(Do(Do(Do(Do(Do(Do(START, MakeChannel), HelperDispatch), ChildCommit), ChildExec), Seal), BeginPublish), SetTerminal);
    assert s.terminal == Some(Success) && s.runner == Decided && s.stateLock == Runner && !s.flag;
    assert Do(s, Admit).log[|s.log|] == Admitted;
    KillLinearizes(WON);
    OverturnSucceeds(DoAll(START, WON), 0);
  }

  lemma WonUnfolds()
    ensures DoAll(START, WON) ==
            Do(Do(Do(Do(Do(Do(Do(Do(START, MakeChannel), HelperDispatch), ChildCommit), ChildExec), Seal), BeginPublish), SetTerminal), Admit)
  {
    hide Do;
    var s := START;
    DoAllFirst(s, MakeChannel, [HelperDispatch] + ([ChildCommit] + ([ChildExec] + ([Seal] + ([BeginPublish] + ([SetTerminal] + [Admit]))))));
    s := Do(s, MakeChannel);
    DoAllFirst(s, HelperDispatch, [ChildCommit] + ([ChildExec] + ([Seal] + ([BeginPublish] + ([SetTerminal] + [Admit])))));
    s := Do(s, HelperDispatch);
    DoAllFirst(s, ChildCommit, [ChildExec] + ([Seal] + ([BeginPublish] + ([SetTerminal] + [Admit]))));
    s := Do(s, ChildCommit);
    DoAllFirst(s, ChildExec, [Seal] + ([BeginPublish] + ([SetTerminal] + [Admit])));
    s := Do(s, ChildExec);
    DoAllFirst(s, Seal, [BeginPublish] + ([SetTerminal] + [Admit]));
    s := Do(s, Seal);
    DoAllFirst(s, BeginPublish, [SetTerminal] + [Admit]);
    s := Do(s, BeginPublish);
    DoAllFirst(s, SetTerminal, [Admit]);
    assert [Admit][..0] == [];
  }
}
