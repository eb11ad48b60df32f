/**
`cleanup_owned_h1` and `_recover_cleanup_h1`: finite best-effort cleanup of one owned process
against an arbitrary kernel.  Whether a run was clean is read off the tally of driver calls.
*/
module HelperCleanup {
  import opened Base
  import opened HelperProtocol
  import opened HelperKernel

  const DRAIN_ROUNDS := 16
  const DRAIN_LIMIT := 65536
  const MAX_CALLS := 10 + 3 * DRAIN_ROUNDS

  predicate Sorted(times: seq<Time>) {
    forall i, j | 0 <= i <= j < |times| :: NotBefore(times[i], times[j])
  }

  function Since(notBefore: Option<Time>): seq<Time> {
    if notBefore.Some? then [notBefore.value] else []
  }

  function Budget(timing: Timing): nat { timing.terminate + timing.drain + timing.reap }

  /** No call raised, reap and close never answered no, no drain was oversized, and the clock
      never went back. */
  predicate Tidy(t: Tally, notBefore: Option<Time>) {
    t.raised == t.refused == t.oversized == 0 && Sorted(Since(notBefore) + t.clocks)
  }

  /** Tidy, and the last clock reading is within the deadline counted from the first. */
  predicate Orderly(t: Tally, timing: Timing, notBefore: Option<Time>) {
    && Tidy(t, notBefore)
    && (t.clocks != [] ==> t.clocks[|t.clocks| - 1].mono <= t.clocks[0].mono + Budget(timing))
  }

  lemma NothingYetIsTidy(notBefore: Option<Time>)
    ensures Tidy(NO_CALLS, notBefore)
  {
  }

  lemma TidyClock(t: Tally, notBefore: Option<Time>, now: Time)
    requires Tidy(t, notBefore)
    ensures var before := Since(notBefore) + t.clocks;
            Tidy(Record(t, Clock, Read(now)), notBefore) <==> before == [] || NotBefore(before[|before| - 1], now)
  {
    var before := Since(notBefore) + t.clocks;
    var after := Since(notBefore) + (t.clocks + [now]);
    assert after == before + [now];
    if before != [] {
      if NotBefore(before[|before| - 1], now) {
        forall i | 0 <= i < |before|
          ensures NotBefore(before[i], now)
        {
          assert NotBefore(before[i], before[|before| - 1]);
        }
      } else {
        assert !NotBefore(after[|before| - 1], after[|before|]);
      }
    }
  }

  /** Disorder is never erased by a later call. */
  lemma DisorderStays(t: Tally, op: Operation, answer: Answer, timing: Timing, notBefore: Option<Time>)
    requires Orderly(Record(t, op, answer), timing, notBefore)
    ensures Orderly(t, timing, notBefore)
  {
    var later := Record(t, op, answer);
    var short, long := Since(notBefore) + t.clocks, Since(notBefore) + later.clocks;
    assert forall i | 0 <= i < |short| :: short[i] == long[i];
    if t.clocks != [] {
      assert NotBefore(long[|short| - 1], long[|long| - 1]);
    }
  }

  // ----- the routine -----

  /** A reap and the clock after it, from call `n` on, go well for this process. */
  predicate ReapsAt(env: nat -> Weather, role: Role, p: Proc, timing: Timing, began: Time, previous: Time, n: nat)
    requires !p.closed
  {
    && env(n).early.None? && env(n).late.None? && Act(Reap, role, p, env(n)).1
    && env(n + 1).early.None? && NotBefore(previous, env(n + 1).time) && env(n + 1).time.mono <= began.mono + Budget(timing)
  }

  /** A clock not before `last`, the reap, the clock after it, and the close. */
  predicate StopsAt(env: nat -> Weather, role: Role, p: Proc, timing: Timing, last: Option<Time>, n: nat)
    requires !p.closed
  {
    && env(n).early.None? && (last.Some? ==> NotBefore(last.value, env(n).time))
    && ReapsAt(env, role, p, timing, env(n).time, env(n).time, n + 1)
    && env(n + 3).early.None? && env(n + 3).late.None? && env(n + 3).yes
  }

  /** Tidy so far: first and latest clock reading, bytes kept, no reap or close attempted yet. */
  ghost predicate Underway(t: Tally, notBefore: Option<Time>, began: Time, latest: Time, total: nat) {
    && Tidy(t, notBefore) && t.retained == total && t.reaps == t.closes == 0
    && t.clocks != [] && t.clocks[0] == began && t.clocks[|t.clocks| - 1] == latest
  }

  /** A refusal: untidy, but within bounds. */
  ghost predicate Refused(t: Tally, notBefore: Option<Time>, total: nat) {
    !Tidy(t, notBefore) && t.reaps == t.closes == 0 && t.retained <= total
  }

  /** One round: stop if it no longer runs, its grace period is over, or enough was drained. */
  method DrainRound(kernel: Kernel, role: Role, timing: Timing, began: Time, previous: Time, total: nat,
                    ghost notBefore: Option<Time>)
    returns (r: Result<bool, Trouble>, latest: Time, sum: nat)
    requires kernel.Valid() && Underway(kernel.tally, notBefore, began, previous, total)
    modifies kernel`tick, kernel`tally, kernel`objects
    ensures kernel.Valid() && kernel.objects.Keys == old(kernel.objects.Keys)
    ensures kernel.objects - {role} == old(kernel.objects) - {role}
    ensures kernel.tally.calls <= old(kernel.tally.calls) + 3 && sum <= total + CHUNK
    ensures kernel.tally.asked == old(kernel.tally.asked)
    ensures r.Ok? ==> Underway(kernel.tally, notBefore, began, latest, sum)
    ensures r.Err? ==> Refused(kernel.tally, notBefore, total)
  {
    hide Sorted, Kernel.ProcsOk, Kernel.FdsOk;
    latest, sum := previous, total;
    var running := kernel.Drive(Running, role);
    if running.Err? {
      return Err(running.error), latest, sum;
    }
    if !running.value {
      return Ok(false), latest, sum;
    }
    ghost var before := kernel.tally;
    var now := kernel.ReadClock();
    if now.Err? {
      return Err(now.error), latest, sum;
    }
    TidyClock(before, notBefore, now.value);
    if !NotBefore(previous, now.value) {
      return Err(Violation(CleanupUnproven)), latest, sum;
    }
    latest := now.value;
    if began.mono + timing.terminate <= latest.mono {
      return Ok(false), latest, sum;
    }
    var raw := kernel.DrainOwned(role);
    if raw.Err? {
      return Err(raw.error), latest, sum;
    }
    if CHUNK < raw.value {
      return Err(Violation(ProtocolInvalid)), latest, sum;
    }
    sum := total + raw.value;
    return Ok(sum < DRAIN_LIMIT), latest, sum;
  }

  /** Drain for a bounded number of rounds. */
  method Draining(kernel: Kernel, role: Role, timing: Timing, began: Time, ghost notBefore: Option<Time>)
    returns (r: Result<Time, Trouble>)
    requires kernel.Valid() && Underway(kernel.tally, notBefore, began, began, 0)
    modifies kernel`tick, kernel`tally, kernel`objects
    ensures kernel.Valid() && kernel.objects.Keys == old(kernel.objects.Keys)
    ensures kernel.objects - {role} == old(kernel.objects) - {role}
    ensures kernel.tally.calls <= old(kernel.tally.calls) + 3 * DRAIN_ROUNDS && kernel.tally.asked == old(kernel.tally.asked)
    ensures r.Ok? ==> kernel.tally.retained <= DRAIN_LIMIT
                      && Underway(kernel.tally, notBefore, began, r.value, kernel.tally.retained)
    ensures r.Err? ==> Refused(kernel.tally, notBefore, DRAIN_LIMIT)
  {
    hide Sorted, Kernel.ProcsOk, Kernel.FdsOk;
    var previous, total: nat, i := began, 0, 0;
    var more := true;
    while i < DRAIN_ROUNDS && more
      invariant 0 <= i <= DRAIN_ROUNDS && total <= CHUNK * i
      invariant kernel.tally.calls <= old(kernel.tally.calls) + 3 * i && kernel.tally.asked == old(kernel.tally.asked)
      invariant kernel.Valid() && kernel.objects.Keys == old(kernel.objects.Keys)
      invariant kernel.objects - {role} == old(kernel.objects) - {role}
      invariant Underway(kernel.tally, notBefore, began, previous, total)
    {
      var round;
      round, previous, total := DrainRound(kernel, role, timing, began, previous, total, notBefore);
      if round.Err? {
        return Err(round.error);
      }
      more := round.value;
      i := i + 1;
    }
    return Ok(previous);
  }

  /** Ask nicely, drain, then kill what still runs. */
  method Terminating(kernel: Kernel, role: Role, timing: Timing, began: Time, ghost notBefore: Option<Time>)
    returns (r: Result<Time, Trouble>)
    requires kernel.Valid() && Underway(kernel.tally, notBefore, began, began, 0)
    modifies kernel`tick, kernel`tally, kernel`objects
    ensures kernel.Valid() && kernel.objects.Keys == old(kernel.objects.Keys)
    ensures kernel.objects - {role} == old(kernel.objects) - {role}
    ensures kernel.tally.calls <= old(kernel.tally.calls) + 3 + 3 * DRAIN_ROUNDS
    ensures r.Ok? ==> kernel.tally.retained <= DRAIN_LIMIT
                      && Underway(kernel.tally, notBefore, began, r.value, kernel.tally.retained)
    ensures r.Err? ==> Refused(kernel.tally, notBefore, DRAIN_LIMIT)
    ensures kernel.tally.asked == old(kernel.tally.asked) + 1
    ensures r.Ok? ==> role in kernel.objects && !kernel.objects[role].running
  {
    hide Sorted, Kernel.ProcsOk, Kernel.FdsOk;
    var asked := kernel.Drive(Terminate, role);
    if asked.Err? {
      return Err(asked.error);
    }
    r := Draining(kernel, role, timing, began, notBefore);
    if r.Err? { return; }
    var running := kernel.Drive(Running, role);
    if running.Err? {
      return Err(running.error);
    }
    if running.value {
      var killed := kernel.Drive(Kill, role);
      if killed.Err? {
        return Err(killed.error);
      }
    }
  }

  /** Reap, and read the clock once more against the deadline. */
  method Reaping(kernel: Kernel, role: Role, timing: Timing, began: Time, previous: Time, ghost notBefore: Option<Time>)
    returns (r: Result<(), Trouble>)
    requires kernel.Valid() && Underway(kernel.tally, notBefore, began, previous, kernel.tally.retained)
    modifies kernel`tick, kernel`tally, kernel`objects
    ensures kernel.Valid() && kernel.objects.Keys == old(kernel.objects.Keys)
    ensures kernel.objects - {role} == old(kernel.objects) - {role}
    ensures kernel.tally.calls <= old(kernel.tally.calls) + 2
    ensures kernel.tally.closes == 0 && kernel.tally.reaps == 1 && kernel.tally.retained == old(kernel.tally.retained)
    ensures kernel.tally.asked == old(kernel.tally.asked)
    ensures r.Ok? <==> Orderly(kernel.tally, timing, notBefore)
    ensures old(role in kernel.objects && !kernel.objects[role].closed) ==>
              (r.Ok? <==> ReapsAt(kernel.env, role, old(kernel.objects[role]), timing, began, previous, old(kernel.tick)))
    ensures r.Ok? ==> kernel.tick == old(kernel.tick) + 2 && role in kernel.objects && !kernel.objects[role].closed && kernel.objects[role].reaped
  {
    hide Sorted, Kernel.ProcsOk, Kernel.FdsOk;
    var reaped := kernel.Drive(Reap, role);
    if reaped.Err? {
      return Err(reaped.error);
    }
    if !reaped.value {
      return Err(Violation(CleanupUnproven));
    }
    ghost var before := kernel.tally;
    var ended := kernel.ReadClock();
    if ended.Err? {
      return Err(ended.error);
    }
    TidyClock(before, notBefore, ended.value);
    if !(NotBefore(previous, ended.value) && ended.value.mono <= began.mono + Budget(timing)) {
      return Err(Violation(CleanupUnproven));
    }
    return Ok(());
  }

  /** The protected part of the routine: an error here sends it down the best-effort path. */
  method Stop(kernel: Kernel, role: Role, timing: Timing, normal: bool, notBefore: Option<Time>)
    returns (r: Result<(), Trouble>)
    requires kernel.Valid() && kernel.tally == NO_CALLS
    modifies kernel`tick, kernel`tally, kernel`objects
    ensures kernel.Valid() && kernel.objects.Keys == old(kernel.objects.Keys)
    ensures kernel.objects - {role} == old(kernel.objects) - {role}
    ensures kernel.tally.calls <= MAX_CALLS - 4
    ensures kernel.tally.closes == 0 && kernel.tally.reaps <= 1 && kernel.tally.retained <= DRAIN_LIMIT
    ensures r.Ok? <==> Orderly(kernel.tally, timing, notBefore)
    ensures r.Ok? ==> kernel.tally.reaps == 1 && kernel.tally.asked == (if normal then 0 else 1)
    ensures normal && old(role in kernel.objects && !kernel.objects[role].closed) ==>
              (r.Ok? <==>
                var n := old(kernel.tick);
                && kernel.env(n).early.None? && (notBefore.Some? ==> NotBefore(notBefore.value, kernel.env(n).time))
                && ReapsAt(kernel.env, role, old(kernel.objects[role]), timing, kernel.env(n).time, kernel.env(n).time, n + 1))
    ensures normal && r.Ok? ==> kernel.tick == old(kernel.tick) + 3
    ensures r.Ok? ==> role in kernel.objects && !kernel.objects[role].closed && kernel.objects[role].reaped
  {
    hide Sorted, Kernel.ProcsOk, Kernel.FdsOk;
    var began := kernel.ReadClock();
    if began.Err? {
      return Err(began.error);
    }
    NothingYetIsTidy(notBefore);
    TidyClock(NO_CALLS, notBefore, began.value);
    if notBefore.Some? && !NotBefore(notBefore.value, began.value) {
      return Err(Violation(CleanupUnproven));
    }
    var previous := began.value;
    if !normal {
      var stopped := Terminating(kernel, role, timing, began.value, notBefore);
      if stopped.Err? {
        return Err(stopped.error);
      }
      previous := stopped.value;
    }
    r := Reaping(kernel, role, timing, began.value, previous, notBefore);
  }

  /** After a failed stop: kill, read the clock and reap, each once and each whatever the others do. */
  method BestEffort(kernel: Kernel, role: Role, ghost timing: Timing, ghost notBefore: Option<Time>)
    returns (interrupted: bool)
    requires kernel.Valid() && !Orderly(kernel.tally, timing, notBefore)
    modifies kernel`tick, kernel`tally, kernel`objects
    ensures kernel.Valid() && kernel.objects.Keys == old(kernel.objects.Keys)
    ensures kernel.objects - {role} == old(kernel.objects) - {role}
    ensures !Orderly(kernel.tally, timing, notBefore)
    ensures kernel.tally.calls == old(kernel.tally.calls) + 3 && kernel.tally.reaps == old(kernel.tally.reaps) + 1
    ensures kernel.tally.closes == old(kernel.tally.closes) && kernel.tally.retained == old(kernel.tally.retained)
  {
    hide Orderly, Kernel.ProcsOk, Kernel.FdsOk;
    ghost var t0 := kernel.tally;
    var killed := kernel.Drive(Kill, role);
    ghost var t1 := kernel.tally;
    var now := kernel.ReadClock();
    ghost var t2 := kernel.tally;
    var reaped := kernel.Drive(Reap, role);
    if Orderly(kernel.tally, timing, notBefore) {
      DisorderStays(t2, Reap, if reaped.Ok? then Said(reaped.value) else Raised, timing, notBefore);
      DisorderStays(t1, Clock, if now.Ok? then Read(now.value) else Raised, timing, notBefore);
      DisorderStays(t0, Kill, if killed.Ok? then Said(killed.value) else Raised, timing, notBefore);
    }
    interrupted := killed == Err(Interrupt) || now == Err(Interrupt) || reaped == Err(Interrupt);
  }

  /** A close that answered yes keeps the tally orderly; anything else spoils it. */
  lemma OrderlyClose(t: Tally, answer: Answer, timing: Timing, notBefore: Option<Time>)
    requires answer == Raised || answer.Said?
    ensures Orderly(Record(t, CloseOwned, answer), timing, notBefore)
            <==> Orderly(t, timing, notBefore) && answer == Said(true)
  {
    hide Sorted;
  }

  /** Whatever the kernel does, cleanup makes boundedly many calls, keeps at most 64 KiB of
      drained output, attempts the reap, closes exactly once, and reports success exactly when
      the whole tally is orderly; success leaves the process reaped and closed. */
  method Cleanup(kernel: Kernel, role: Role, timing: Timing, normal: bool, notBefore: Option<Time>)
    returns (safe: bool, interrupted: bool)
    requires kernel.Valid()
    modifies kernel`tick, kernel`tally, kernel`objects
    ensures kernel.Valid() && kernel.objects.Keys == old(kernel.objects.Keys)
    ensures kernel.objects - {role} == old(kernel.objects) - {role}
    ensures kernel.tally.calls <= MAX_CALLS && kernel.tally.retained <= DRAIN_LIMIT
    ensures 1 <= kernel.tally.reaps <= 2 && kernel.tally.closes == 1
    ensures safe <==> Orderly(kernel.tally, timing, notBefore)
    ensures safe ==> kernel.Gone(role)
    ensures normal && old(role in kernel.objects && !kernel.objects[role].closed) ==>
              && (safe <==> StopsAt(kernel.env, role, old(kernel.objects[role]), timing, notBefore, old(kernel.tick)))
              && (safe ==> kernel.tick == old(kernel.tick) + 4)
  {
    hide Orderly, ReapsAt, NotBefore, Kernel.ProcsOk, Kernel.FdsOk, Kernel.Gone;
    kernel.tally := NO_CALLS;
    var stopped := Stop(kernel, role, timing, normal, notBefore);
    interrupted := stopped == Err(Interrupt);
    if stopped.Err? {
      var again := BestEffort(kernel, role, timing, notBefore);
      interrupted := interrupted || again;
    }
    ghost var open := kernel.tally;
    var closed := kernel.Drive(CloseOwned, role);
    OrderlyClose(open, if closed.Ok? then Said(closed.value) else Raised, timing, notBefore);
    interrupted := interrupted || closed == Err(Interrupt);
    safe := stopped.Ok? && closed == Ok(true);
  }

  /** Recovery by pinned invocation and role: nothing owned means nothing to clean. */
  method RecoverCleanup(kernel: Kernel, role: Role, timing: Timing, normal: bool, last: Time)
    returns (clean: bool, found: bool, interrupted: bool)
    requires kernel.Valid()
    modifies kernel`tick, kernel`tally, kernel`objects, kernel`cleanupFailed
    ensures kernel.Valid() && kernel.objects.Keys == old(kernel.objects.Keys)
    ensures kernel.objects - {role} == old(kernel.objects) - {role}
    ensures clean ==> role !in kernel.objects || kernel.Gone(role)
    ensures clean ==> found == old(role in kernel.objects && !kernel.Gone(role))
    ensures kernel.cleanupFailed == (old(kernel.cleanupFailed) || !clean)
    ensures normal && old(role in kernel.objects && !kernel.objects[role].closed) ==>
              && (clean <==> kernel.env(old(kernel.tick)).early.None?
                             && StopsAt(kernel.env, role, old(kernel.objects[role]), timing, Some(last), old(kernel.tick) + 1))
              && (clean ==> kernel.tick == old(kernel.tick) + 5)
  {
    hide Orderly, StopsAt, Kernel.ProcsOk, Kernel.FdsOk;
    var owned := kernel.RecoverOwned(role);
    if owned.Err? {
      kernel.cleanupFailed := true;
      return false, false, owned.error == Interrupt;
    }
    if !owned.value {
      return true, false, false;
    }
    var safe, stopped := Cleanup(kernel, role, timing, normal, Some(last));
    if !safe {
      kernel.cleanupFailed := true;
    }
    return safe, true, stopped;
  }
}
