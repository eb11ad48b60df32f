/**
Concrete runs of the installer, from an empty store, that end where the laws of serial calls do not
reach: a quarantine undone, the two ways for a closed circuit to be wrong, and a recovery that cannot
converge.
*/
module InstallerRuns {
  import opened Base
  import opened Installer

  /** The only approval of these runs, with its first call read back and not yet committed. */
  lemma FirstReadsBack(w: World)
    requires w == Do(GENESIS, Register(1)) || w == Do(Do(GENESIS, Register(1)), Register(2))
    ensures var v := AfterCall(w, 10, 1, Bootstrap);
            && v.host == Host(Some(RuleSet(1, false)), Some(1), 1, map[10 := Ack(10, 1, RuleSet(1, false), 1)])
            && v.nets == w.nets[1 := Net(New, 1, false)] && v.jobs == map[10 := Job(1, Bootstrap, 0, 0, Dispatched, None)]
            && v.live == map[10 := Checked(Ack(10, 1, RuleSet(1, false), 1))]
  {
    assert w.jobs == map[] && w.nets[1] == Net(New, 0, false) && w.live == map[];
    CallReadsBack(w, 10, 1, Bootstrap);
  }

  // ----- a quarantine undone -----

  const RECOVERED: seq<Action> := [Register(1)] + ([Register(2)] + (CallSteps(10, 1, Bootstrap) + [Recover(10, 1)]))

  const UNDONE: seq<Action> := [Verify(10)] + [Dispatch(20, 2, Bootstrap, 0, true)]

  lemma RecoveredIs()
    ensures DoAll(GENESIS, RECOVERED) == Do(AfterCall(Do(Do(GENESIS, Register(1)), Register(2)), 10, 1, Bootstrap), Recover(10, 1))
  {
    hide Do, AfterCall;
    var w := Do(Do(GENESIS, Register(1)), Register(2));
    DoAllFirst(GENESIS, Register(1), [Register(2)] + (CallSteps(10, 1, Bootstrap) + [Recover(10, 1)]));
    DoAllFirst(Do(GENESIS, Register(1)), Register(2), CallSteps(10, 1, Bootstrap) + [Recover(10, 1)]);
    DoAllSplits(w, CallSteps(10, 1, Bootstrap), [Recover(10, 1)]);
    CallStepsUnfold(w, 10, 1, Bootstrap);
    One(AfterCall(w, 10, 1, Bootstrap), Recover(10, 1));
  }

  lemma RecoveredWorld()
    ensures var v := DoAll(GENESIS, RECOVERED);
            && v.jobs == map[10 := Job(1, Bootstrap, 0, 0, Quarantined, None)] && 1 in v.nets
            && v.live == map[10 := Checked(Ack(10, 1, RuleSet(1, false), 1))] && 2 in v.nets && v.nets[2] == Net(New, 0, false)
  {
    var w := Do(Do(GENESIS, Register(1)), Register(2));
    RecoveredIs();
    FirstReadsBack(w);
  }

  /** A recovery under a running call: the job is quarantined, then verified all the same, and the next
      bootstrap, for another approval, is dispatched. */
  lemma QuarantineUndone()
    ensures var w, v := DoAll(GENESIS, RECOVERED), DoAll(GENESIS, RECOVERED + UNDONE);
            && 10 in w.jobs && w.jobs[10].status == Quarantined
            && 20 !in w.jobs && 20 in v.jobs && v.jobs[20].op == Bootstrap && v.jobs[20].approval == 2
  {
    hide Do;
    var v := DoAll(GENESIS, RECOVERED);
    RecoveredWorld();
    CheckedVerifies(v, 10);
    DoAllSplits(GENESIS, RECOVERED, UNDONE);
    DoAllSplits(v, [Verify(10)], [Dispatch(20, 2, Bootstrap, 0, true)]);
    One(v, Verify(10));
    One(Do(v, Verify(10)), Dispatch(20, 2, Bootstrap, 0, true));
    SecondDispatches(Do(v, Verify(10)));
  }

  lemma SecondDispatches(w: World)
    requires w.jobs.Keys == {10} && w.jobs[10].status == Verified && 2 in w.nets && w.nets[2] == Net(New, 0, false)
    ensures var v := Do(w, Dispatch(20, 2, Bootstrap, 0, true));
            20 in v.jobs && v.jobs[20].op == Bootstrap && v.jobs[20].approval == 2
  {
    assert !CircuitOpen(w);
  }

  // ----- a closed circuit that is wrong -----

  const INSTALLED: seq<Action> := [Register(1)] + (CallSteps(10, 1, Bootstrap) + [Verify(10)])

  /** A second call read back, then a whole rollback from a third. */
  function Overlapped(op: Op): seq<Action> {
    INSTALLED + (CallSteps(11, 1, op) + (CallSteps(12, 1, Rollback) + [Verify(12)]))
  }

  lemma InstalledWorld()
    ensures var v := DoAll(GENESIS, INSTALLED);
            && v.host.rules == Some(RuleSet(1, false)) && v.host.owner == Some(1) && v.host.generation == 1
            && v.nets == map[1 := Net(Booted, 1, false)] && v.live == map[]
            && v.jobs.Keys == {10} && v.jobs[10].status == Verified
  {
    var w := Do(GENESIS, Register(1));
    var v := AfterCall(w, 10, 1, Bootstrap);
    DoAllFirst(GENESIS, Register(1), CallSteps(10, 1, Bootstrap) + [Verify(10)]);
    DoAllSplits(w, CallSteps(10, 1, Bootstrap), [Verify(10)]);
    CallStepsUnfold(w, 10, 1, Bootstrap);
    One(v, Verify(10));
    FirstReadsBack(w);
    CheckedVerifies(v, 10);
    assert w.nets == map[1 := Net(New, 0, false)];
    hide Do, AfterCall;
    assert v.live - {10} == map[];
  }

  lemma OverlappedIs(op: Op)
    ensures DoAll(GENESIS, Overlapped(op)) == AfterRollback(AfterCall(DoAll(GENESIS, INSTALLED), 11, 1, op), 1, 12)
  {
    hide Do, AfterCall;
    var w := DoAll(GENESIS, INSTALLED);
    DoAllSplits(GENESIS, INSTALLED, CallSteps(11, 1, op) + (CallSteps(12, 1, Rollback) + [Verify(12)]));
    DoAllSplits(w, CallSteps(11, 1, op), CallSteps(12, 1, Rollback) + [Verify(12)]);
    CallStepsUnfold(w, 11, 1, op);
    var v := AfterCall(w, 11, 1, op);
    DoAllSplits(v, CallSteps(12, 1, Rollback), [Verify(12)]);
    CallStepsUnfold(v, 12, 1, Rollback);
    One(AfterCall(v, 12, 1, Rollback), Verify(12));
  }

  lemma OverlappedWorld(op: Op)
    requires op != Bootstrap
    ensures var v := DoAll(GENESIS, Overlapped(op));
            && v.host.rules == Some(RuleSet(1, false)) && v.host.owner == Some(1) && v.host.generation == 3
            && 11 in v.host.trace && v.host.trace[11] == Ack(11, 1, RulesOf(1, op), 2)
            && v.nets == map[1 := Net(Booted, 3, false)] && v.live == map[11 := Checked(Ack(11, 1, RulesOf(1, op), 2))]
            && v.jobs.Keys == {10, 11, 12} && v.jobs[10].status == Verified && v.jobs[12].status == Verified
            && v.jobs[11] == Job(1, op, 0, 1, Dispatched, None)
  {
    hide Do, AfterCall;
    var w := DoAll(GENESIS, INSTALLED);
    InstalledWorld();
    assert !CircuitOpen(w);
    CallReadsBack(w, 11, 1, op);
    RollbackEffect(AfterCall(w, 11, 1, op), 1, 12);
    OverlappedIs(op);
  }

  predicate ClosedAndWrong(w: World) { !CircuitOpen(w) && !Settled(w) }

  /** The last change is of the other mode: the store says active over bootstrap rules. */
  lemma WrongMode()
    ensures var v := DoAll(GENESIS, Overlapped(Activate) + [Verify(11)]);
            ClosedAndWrong(v) && 1 in v.nets && v.nets[1] == Net(Active, 3, false) && v.host.generation == 3
            && v.host.rules == Some(RuleSet(1, false))
  {
    hide Do;
    var w := DoAll(GENESIS, Overlapped(Activate));
    OverlappedWorld(Activate);
    DoAllSplits(GENESIS, Overlapped(Activate), [Verify(11)]);
    One(w, Verify(11));
    CheckedVerifies(w, 11);
    var v := Do(w, Verify(11));
    assert v.nets[1].stage == Active;
  }

  /** The recovered generation is older: the store is one behind a host it otherwise describes. */
  lemma WrongGeneration()
    ensures var v := DoAll(GENESIS, Overlapped(Rollback) + ([Recover(11, 1)] + [Verify(11)]));
            ClosedAndWrong(v) && 1 in v.nets && v.nets[1] == Net(Booted, 2, true) && v.host.generation == 3
            && v.host.rules == Some(RuleSet(1, false))
  {
    var w := DoAll(GENESIS, Overlapped(Rollback));
    OverlappedWorld(Rollback);
    DoAllSplits(GENESIS, Overlapped(Rollback), [Recover(11, 1)] + [Verify(11)]);
    DoAllSplits(w, [Recover(11, 1)], [Verify(11)]);
    One(w, Recover(11, 1));
    One(Do(w, Recover(11, 1)), Verify(11));
    OlderIsWritten(w);
  }

  lemma OlderIsWritten(w: World)
    requires w.host.rules == Some(RuleSet(1, false)) && w.host.owner == Some(1) && w.host.generation == 3
    requires 11 in w.host.trace && w.host.trace[11] == Ack(11, 1, RuleSet(1, false), 2)
    requires w.nets == map[1 := Net(Booted, 3, false)] && w.live == map[11 := Checked(Ack(11, 1, RuleSet(1, false), 2))]
    requires w.jobs.Keys == {10, 11, 12} && w.jobs[10].status == Verified && w.jobs[12].status == Verified
    requires w.jobs[11] == Job(1, Rollback, 0, 1, Dispatched, None)
    ensures var v := Do(Do(w, Recover(11, 1)), Verify(11));
            && v.host == w.host && v.nets == map[1 := Net(Booted, 2, true)] && ClosedAndWrong(v)
  {
    var w1 := Do(w, Recover(11, 1));
    assert w1.nets[1] == Net(Blocked, 2, true) && w1.live == w.live && w1.jobs.Keys == {10, 11, 12};
    CheckedVerifies(w1, 11);
    hide Do;
    var v := Do(w1, Verify(11));
    assert forall j | j in v.jobs :: v.jobs[j].status == Verified;
    assert v.nets[1] == Net(Booted, 2, true);
  }

  // ----- a recovery that cannot converge -----

  /** A serial run: a bootstrap that dies before its commit, a whole rollback, and the first job is
      still to be recovered while the host has moved on. */
  const OUTRUN: seq<Action> := [Register(1)] + (CallSteps(10, 1, Bootstrap) + ([Crash] + (CallSteps(11, 1, Rollback) + [Verify(11)])))

  lemma OutrunIs()
    ensures var w := AfterCall(Do(GENESIS, Register(1)), 10, 1, Bootstrap);
            DoAll(GENESIS, OUTRUN) == AfterRollback(Do(w, Crash), 1, 11)
  {
    hide Do, AfterCall;
    var w0 := Do(GENESIS, Register(1));
    var w := AfterCall(w0, 10, 1, Bootstrap);
    DoAllFirst(GENESIS, Register(1), CallSteps(10, 1, Bootstrap) + ([Crash] + (CallSteps(11, 1, Rollback) + [Verify(11)])));
    DoAllSplits(w0, CallSteps(10, 1, Bootstrap), [Crash] + (CallSteps(11, 1, Rollback) + [Verify(11)]));
    CallStepsUnfold(w0, 10, 1, Bootstrap);
    DoAllFirst(w, Crash, CallSteps(11, 1, Rollback) + [Verify(11)]);
    DoAllSplits(Do(w, Crash), CallSteps(11, 1, Rollback), [Verify(11)]);
    CallStepsUnfold(Do(w, Crash), 11, 1, Rollback);
    One(AfterCall(Do(w, Crash), 11, 1, Rollback), Verify(11));
  }

  lemma CrashForgets(w: World)
    ensures var v := Do(w, Crash); v.live == map[] && v.jobs == w.jobs && v.nets == w.nets && v.host == w.host
  {
  }

  lemma OutrunWorld()
    ensures var w := DoAll(GENESIS, OUTRUN);
            && w.live == map[] && MayRecover(w, 10, 1) && 12 !in w.jobs
            && w.host.generation == 2 && w.host.trace[10].generation == 1
  {
    var w0 := Do(GENESIS, Register(1));
    assert w0.nets == map[1 := Net(New, 0, false)];
    hide Do, AfterCall, AfterRollback;
    var w := AfterCall(w0, 10, 1, Bootstrap);
    FirstReadsBack(w0);
    OutrunIs();
    CrashForgets(w);
    RollbackEffect(Do(w, Crash), 1, 11);
  }

  lemma OutrunIsSerial()
    ensures Serial(GENESIS, OUTRUN)
  {
    forall n | 0 <= n < |OUTRUN|
      ensures SerialStep(DoAll(GENESIS, OUTRUN[..n]), OUTRUN[n])
    {
      if n == 1 {
        One(GENESIS, Register(1));
        assert OUTRUN[..1] == [Register(1)];
      } else if n == 6 {
        assert OUTRUN[..6] == OUTRUN[..5] + [Crash];
        DoAllSplits(GENESIS, OUTRUN[..5], [Crash]);
        One(DoAll(GENESIS, OUTRUN[..5]), Crash);
      } else {
        assert OUTRUN[n].Dispatch? || OUTRUN[n].Recover? ==> n == 1 || n == 6;
      }
    }
  }

  /** The other branch of RecoveryExact is reached: the rollback after this recovery does nothing, and
      the approval is left blocked with a generation the host no longer has. */
  lemma RecoveryCannotConverge(deadline: nat)
    ensures var w := DoAll(GENESIS, OUTRUN);
            && Serial(GENESIS, OUTRUN) && w.live == map[] && MayRecover(w, 10, 1)
            && var v := AfterRecovery(w, 10, 1, 12, deadline);
               v.host == w.host && !RolledBack(v, 1, 12) && StillBlocked(v, 1)
  {
    var w := DoAll(GENESIS, OUTRUN);
    OutrunWorld();
    OutrunIsSerial();
    LooseRun(OUTRUN);
    hide LooseBooks, AfterRecovery, RolledBack, StillBlocked, MayRecover, Serial;
    RecoveryExact(w, 10, 1, 12, deadline);
  }
}
