/**
Offline verification of one counter measurement: fifteen samples, each bracketed by two complete
counter readings, under a reservation that any kill, switch or clock rollback invalidates.
*/
module CounterEvidence {
  import opened Base

  const SAMPLES := 15
  const WINDOW := 2.0

  datatype Value = Value(packets: nat, bytes: nat)

  /** What the recipe says a counter belongs to. */
  datatype Role = IngressOf(probe: nat) | TerminalOf(probe: nat) | TcpRequest | TcpReply | OtherCounter

  datatype Denial =
    | ClockRollback | Killed | Deadline | InProgressOrClosed | NotIssued | NotExpired
    | EvidenceInvalid | PacketIncomplete | TopologyUnproven | ResetOrWrap | DeltaUnexplained
    | GenerationChanged | ReplyRefused

  datatype Stage = Send | Ingress | TargetIngress | Response | RunnerReceive

  /** One observation of a frame; `bound` is its agreement with probe id, rules digest and generation. */
  datatype Event = Event(stage: Stage, sequence: nat, bound: bool, at: real, interface: nat, frame: seq<Byte>)

  /** The packet record of one probe; `issued` is its agreement with the approval it names. */
  datatype Record = Record(issued: bool, index: nat, dropped: nat, truncated: bool, events: seq<Event>)

  /** What the approval fixes: the planned frames, the two interfaces, how padding is stripped, and
      which frames count as a reply to which probe. */
  datatype Wire = Wire(frames: seq<seq<Byte>>, runnerIf: nat, targetIf: nat,
                       unpad: seq<Byte> -> seq<Byte>, replies: (nat, seq<Byte>) -> bool)

  /** One sample: when each part was observed, its packet record, and both complete readings in recipe
      order. */
  datatype Sample = Sample(
    beforeStart: real, beforeEnd: real, sendStart: real, sendEnd: real, afterStart: real, afterEnd: real,
    record: Record, before: seq<Value>, after: seq<Value>)

  datatype Measurement = Measurement(topologyOk: bool, topologyBefore: real, topologyAfter: real, samples: seq<Sample>)

  /** The permitted probe is followed to the target and back, every other one only to its drop. */
  function Stages(index: nat): seq<Stage> {
    if index == 0 then [Send, Ingress, TargetIngress, Response, RunnerReceive] else [Send, Ingress]
  }

  predicate IsReply(stage: Stage) { stage == Response || stage == RunnerReceive }

  predicate EventOk(wire: Wire, s: Sample, index: nat, k: nat)
    requires index < |wire.frames| && k < |s.record.events| == |Stages(index)|
  {
    var e := s.record.events[k];
    && e.stage == Stages(index)[k] && e.sequence == k + 1 && e.bound && s.sendStart <= e.at <= s.sendEnd
    && e.interface == (if e.stage == TargetIngress || e.stage == Response then wire.targetIf else wire.runnerIf)
    && (if IsReply(e.stage)
        then wire.replies(index, e.frame) && (k == 4 ==> wire.unpad(e.frame) == wire.unpad(s.record.events[3].frame))
        else wire.unpad(e.frame) == wire.frames[index])
  }

  /** Every stage of the probe was observed in order, on the right interface and in the sending window,
      with the planned frame on the way out and one and the same accepted reply on the way back. */
  predicate Witnessed(wire: Wire, index: nat, s: Sample) {
    && index < |wire.frames| && s.record.issued && s.record.index == index && s.record.dropped == 0 && !s.record.truncated
    && |s.record.events| == |Stages(index)|
    && forall k | 0 <= k < |s.record.events| :: EventOk(wire, s, index, k)
  }

  function FrameLength(wire: Wire, index: nat): nat { if index < |wire.frames| then |wire.frames[index]| else 0 }

  function ReplyLength(wire: Wire, s: Sample): nat {
    if |s.record.events| == 5 then |wire.unpad(s.record.events[4].frame)| else 0
  }

  /** The change a sample must show on a counter: its own probe's counters, the four TCP allow
      counters for the permitted probe, and nothing anywhere else. */
  function Planned(wire: Wire, role: Role, index: nat, s: Sample): Value {
    if role == IngressOf(index) || role == TerminalOf(index) then Value(1, FrameLength(wire, index))
    else if index == 0 && role == TcpRequest then Value(1, FrameLength(wire, index))
    else if index == 0 && role == TcpReply then Value(1, ReplyLength(wire, s))
    else Value(0, 0)
  }

  predicate ExactDeltas(wire: Wire, roles: seq<Role>, index: nat, s: Sample) {
    && |s.before| == |s.after| == |roles|
    && forall k | 0 <= k < |roles| ::
         && s.before[k].packets <= s.after[k].packets && s.before[k].bytes <= s.after[k].bytes
         && s.after[k].packets - s.before[k].packets == Planned(wire, roles[k], index, s).packets
         && s.after[k].bytes - s.before[k].bytes == Planned(wire, roles[k], index, s).bytes
  }

  predicate InOrder(s: Sample) {
    s.beforeEnd <= s.sendStart <= s.sendEnd <= s.afterStart
  }

  /** A chain of samples without a gap: exact changes inside, unchanged counters in between. */
  predicate Chained(wire: Wire, roles: seq<Role>, samples: seq<Sample>) {
    && (forall i | 0 <= i < |samples| :: Witnessed(wire, i, samples[i]) && InOrder(samples[i]) && ExactDeltas(wire, roles, i, samples[i]))
    && (forall i | 0 < i < |samples| :: samples[i - 1].after == samples[i].before && samples[i - 1].afterEnd <= samples[i].beforeStart)
  }

  /** Planned packets and bytes of one counter over a whole list of samples. */
  function PlannedTotal(wire: Wire, role: Role, samples: seq<Sample>): Value {
    if samples == [] then Value(0, 0)
    else
      var n := |samples| - 1;
      var rest, last := PlannedTotal(wire, role, samples[..n]), Planned(wire, role, n, samples[n]);
      Value(rest.packets + last.packets, rest.bytes + last.bytes)
  }

  /** A chained measurement telescopes: for every counter the last reading minus the first is the
      sum of its planned changes, so nothing was reset and nothing unexplained was counted. */
  lemma {:induction false} Telescopes(wire: Wire, roles: seq<Role>, samples: seq<Sample>, k: nat)
    requires Chained(wire, roles, samples) && samples != [] && k < |roles|
    ensures k < |samples[0].before| && k < |samples[|samples| - 1].after|
    ensures var first, last, total := samples[0].before[k], samples[|samples| - 1].after[k], PlannedTotal(wire, roles[k], samples);
            last.packets == first.packets + total.packets && last.bytes == first.bytes + total.bytes
    decreases |samples|
  {
    var n := |samples| - 1;
    assert ExactDeltas(wire, roles, n, samples[n]);
    if n > 0 {
      var front := samples[..n];
      assert forall i | 0 <= i < n :: front[i] == samples[i];
      Telescopes(wire, roles, front, k);
      assert samples[n - 1].after == samples[n].before;
    } else {
      assert samples[..0] == [];
    }
  }

  datatype Reservation = Reservation(start: real, deadline: real, monotonicEnd: real, epoch: nat)

  /** The lease as it was issued, and when the evidence was closed: `finished` never leaves the lease. */
  datatype Times = Times(start: real, finished: real, deadline: real, closed: real)

  /** The samples accepted before a refusal are published with it. */
  datatype Evidence =
    | Verified(samples: seq<Sample>, times: Times)
    | Unknown(reason: Denial, samples: seq<Sample>, times: Times)

  class OfflineVerifier {
    const wire: Wire
    const roles: seq<Role>
    const createdAt: real               // window of the counter approval
    const expiresAt: real
    const runtimeFrom: real             // window of the runtime approval behind it
    const runtimeUntil: real
    const clock: nat -> real            // successive wall-clock readings
    const monotonic: nat -> real        // successive monotonic readings
    var ticks: nat
    var enabled: bool
    var epoch: nat
    var stopped: bool
    var circuit: bool
    var reservation: Option<Reservation>
    var terminal: Option<Evidence>
    var lastWall: real
    ghost var disturbed: bool           // killed or switched since the reservation
    ghost var gates: seq<real>          // wall times at which a gate was passed

    constructor (wire: Wire, roles: seq<Role>, createdAt: real, expiresAt: real, runtimeFrom: real, runtimeUntil: real,
                 clock: nat -> real, monotonic: nat -> real)
      requires |wire.frames| == SAMPLES
      ensures Valid() && reservation.None? && terminal.None? && !enabled
      ensures this.wire == wire && this.roles == roles && this.expiresAt == expiresAt
    {
      this.wire, this.roles, this.clock, this.monotonic := wire, roles, clock, monotonic;
      this.createdAt, this.expiresAt, this.runtimeFrom, this.runtimeUntil := createdAt, expiresAt, runtimeFrom, runtimeUntil;
      ticks, enabled, epoch, stopped, circuit := 1, false, 0, false, false;
      reservation, terminal, lastWall, disturbed, gates := None, None, clock(0), false, [];
    }

    ghost predicate Valid()
      reads `reservation, `epoch, `disturbed, `gates, `lastWall, `terminal
    {
      && |wire.frames| == SAMPLES
      && (reservation.Some? ==> reservation.value.epoch <= epoch && (disturbed <==> epoch != reservation.value.epoch))
      && (forall i, j | 0 <= i <= j < |gates| :: gates[i] <= gates[j])
      && (forall i | 0 <= i < |gates| :: gates[i] <= lastWall)
      && (terminal.Some? ==> reservation.Some?)
      && (reservation.Some? ==> reservation.value.start < reservation.value.deadline)
    }

    method SetEnabled(on: bool)
      requires Valid()
      modifies this`enabled, this`epoch, this`disturbed
      ensures Valid() && enabled == on && epoch == old(epoch) + 1
      ensures reservation.Some? ==> disturbed
    {
      enabled, epoch := on, epoch + 1;
      disturbed := reservation.Some?;
    }

    method Kill()
      requires Valid()
      modifies this`enabled, this`stopped, this`epoch, this`disturbed
      ensures Valid() && stopped && !enabled && epoch == old(epoch) + 1
      ensures reservation.Some? ==> disturbed
    {
      stopped, enabled, epoch := true, false, epoch + 1;
      disturbed := reservation.Some?;
    }

    method Wall() returns (now: real)
      modifies this`ticks
      ensures now == clock(old(ticks)) && ticks == old(ticks) + 1
    {
      now := clock(ticks);
      ticks := ticks + 1;
    }

    predicate InWindows(now: real) {
      createdAt <= now < expiresAt && runtimeFrom <= now < runtimeUntil
    }

    /** What a gate at reading `n` demands: a wall clock not before the last gate's, nothing killed or
        switched, both windows, and under a reservation both clocks still inside the lease. */
    predicate Passes(n: nat, before: real)
      reads `stopped, `enabled, `reservation, `epoch
    {
      && before <= clock(n) && !stopped && enabled && InWindows(clock(n))
      && (reservation.Some? ==>
            var lease := reservation.value;
            epoch == lease.epoch && clock(n) < lease.deadline && monotonic(n + 1) < lease.monotonicEnd)
    }

    /** Every fence in one place. */
    method Gate() returns (r: Result<real, Denial>)
      requires Valid()
      modifies this`ticks, this`lastWall, this`gates
      ensures Valid() && old(gates) <= gates
      ensures r.Ok? <==> old(Passes(ticks, lastWall))
      ensures r.Ok? ==>
                && r.value == lastWall == clock(old(ticks)) && gates == old(gates) + [r.value]
                && ticks == old(ticks) + (if reservation.Some? then 2 else 1)
      ensures r == Err(ClockRollback) <==> clock(old(ticks)) < old(lastWall)
      ensures r == Err(Killed) ==> stopped || !enabled || (reservation.Some? && disturbed)
      ensures r.Err? ==> r.error in {ClockRollback, Killed, Deadline}
      ensures r == Err(Deadline) ==> !stopped && enabled
    {
      var now := Wall();
      if now < lastWall {
        return Err(ClockRollback);
      }
      lastWall := now;
      if stopped || !enabled {
        return Err(Killed);
      }
      if !InWindows(now) {
        return Err(Deadline);
      }
      if reservation.Some? {
        if epoch != reservation.value.epoch {
          return Err(Killed);
        }
        if now >= reservation.value.deadline {
          return Err(Deadline);
        }
        var steady := monotonic(ticks);
        ticks := ticks + 1;
        if steady >= reservation.value.monotonicEnd {
          return Err(Deadline);
        }
      }
      gates := gates + [now];
      return Ok(now);
    }

    /** When a reservation is granted, and the lease it then holds: on the wall until the deadline, on the
        monotonic clock for just as long from its own reading. */
    predicate Grantable(n: nat, deadline: real)
      reads this
    {
      && Passes(n, lastWall) && !circuit && reservation.None? && terminal.None?
      && clock(n + 1) < deadline <= clock(n + 1) + WINDOW && deadline <= expiresAt
    }

    /** One reservation per verifier, never longer than two seconds or past the approval. */
    method Begin(deadline: real) returns (r: Result<(), Denial>)
      requires Valid()
      modifies this`ticks, this`lastWall, this`gates, this`reservation, this`disturbed
      ensures Valid()
      ensures r.Ok? <==> old(Grantable(ticks, deadline))
      ensures r.Ok? ==>
                var n := old(ticks);
                && !disturbed
                && reservation == Some(Reservation(clock(n + 1), deadline, monotonic(n + 2) + deadline - clock(n + 1), epoch))
      ensures r.Err? ==> reservation == old(reservation)
    {
      var gate := Gate();
      if gate.Err? {
        return Err(gate.error);
      }
      if circuit || reservation.Some? || terminal.Some? {
        return Err(InProgressOrClosed);
      }
      var now := Wall();
      if !(now < deadline <= now + WINDOW && deadline <= expiresAt) {
        return Err(Deadline);
      }
      var steady := monotonic(ticks);
      ticks := ticks + 1;
      reservation, disturbed := Some(Reservation(now, deadline, steady + deadline - now, epoch)), false;
      return Ok(());
    }

    /** The packet record event by event, remembering the reply. */
    method CheckEvents(s: Sample, index: nat) returns (r: Result<(), Denial>)
      requires index < |wire.frames| && s.record.issued && s.record.index == index
      requires s.record.dropped == 0 && !s.record.truncated
      ensures r.Ok? <==> Witnessed(wire, index, s)
      ensures r.Err? ==> r.error == PacketIncomplete || r.error == ReplyRefused
    {
      var events, stages := s.record.events, Stages(index);
      if |events| != |stages| {
        return Err(PacketIncomplete);
      }
      if !(forall k | 0 <= k < |events| :: events[k].stage == stages[k] && events[k].sequence == k + 1) {
        ghost var k :| 0 <= k < |events| && !(events[k].stage == stages[k] && events[k].sequence == k + 1);
        assert !EventOk(wire, s, index, k);
        return Err(PacketIncomplete);
      }
      var reply: Option<seq<Byte>> := None;
      var k := 0;
      while k < |events|
        invariant 0 <= k <= |events| && forall i | 0 <= i < k :: EventOk(wire, s, index, i)
        invariant reply == if k < 4 then None else Some(wire.unpad(events[3].frame))
      {
        var e := events[k];
        if !(e.bound && s.sendStart <= e.at <= s.sendEnd) {
          assert !EventOk(wire, s, index, k);
          return Err(PacketIncomplete);
        }
        if e.interface != (if e.stage == TargetIngress || e.stage == Response then wire.targetIf else wire.runnerIf) {
          assert !EventOk(wire, s, index, k);
          return Err(PacketIncomplete);
        }
        if IsReply(e.stage) {
          if !wire.replies(index, e.frame) {
            assert !EventOk(wire, s, index, k);
            return Err(ReplyRefused);
          }
          if reply.Some? && reply.value != wire.unpad(e.frame) {
            assert !EventOk(wire, s, index, k);
            return Err(PacketIncomplete);
          }
          reply := Some(wire.unpad(e.frame));
        } else if wire.unpad(e.frame) != wire.frames[index] {
          assert !EventOk(wire, s, index, k);
          return Err(PacketIncomplete);
        }
        k := k + 1;
      }
      return Ok(());
    }

    /** `_sample`: the packet record, the order of observation, and the exact change of every counter. */
    method CheckSample(s: Sample, index: nat) returns (r: Result<(), Denial>)
      requires index < |wire.frames|
      ensures r.Ok? <==> Witnessed(wire, index, s) && InOrder(s) && ExactDeltas(wire, roles, index, s)
      ensures r == Err(ResetOrWrap) || r == Err(DeltaUnexplained) ==> Witnessed(wire, index, s) && InOrder(s)
    {
      if !s.record.issued {
        return Err(GenerationChanged);
      }
      if !(s.record.index == index && s.record.dropped == 0 && !s.record.truncated) {
        return Err(PacketIncomplete);
      }
      if !InOrder(s) {
        return Err(EvidenceInvalid);
      }
      if |s.before| != |roles| || |s.after| != |roles| {
        return Err(EvidenceInvalid);
      }
      var witnessed := CheckEvents(s, index);
      if witnessed.Err? {
        return witnessed;
      }
      var k := 0;
      while k < |roles|
        invariant 0 <= k <= |roles|
        invariant forall m | 0 <= m < k ::
                    && s.before[m].packets <= s.after[m].packets && s.before[m].bytes <= s.after[m].bytes
                    && s.after[m].packets - s.before[m].packets == Planned(wire, roles[m], index, s).packets
                    && s.after[m].bytes - s.before[m].bytes == Planned(wire, roles[m], index, s).bytes
      {
        var x, y := s.before[k], s.after[k];
        if y.packets < x.packets || y.bytes < x.bytes {
          return Err(ResetOrWrap);
        }
        var want := Planned(wire, roles[k], index, s);
        if !(y.packets - x.packets == want.packets && y.bytes - x.bytes == want.bytes) {
          return Err(DeltaUnexplained);
        }
        k := k + 1;
      }
      return Ok(());
    }

    /** Within the topology bracket, and the bracket within the lease window. */
    predicate Bracketed(m: Measurement, start: real)
    {
      && start <= m.topologyBefore <= m.topologyAfter && m.topologyAfter - m.topologyBefore <= WINDOW
      && forall i | 0 <= i < |m.samples| ::
           m.topologyBefore <= m.samples[i].beforeStart <= m.samples[i].afterEnd <= m.topologyAfter
    }

    /** The reading at which the gate before sample `i` stands, and the one before it. */
    function GateAt(n: nat, i: nat): nat { n + 3 + 2 * i }

    function Prior(n: nat, i: nat): nat { if i == 0 then n else GateAt(n, i - 1) }

    predicate Gated(n: nat, i: nat)
      reads `stopped, `enabled, `reservation, `epoch
    {
      Passes(GateAt(n, i), clock(Prior(n, i)))
    }

    /** Everything a verified measurement rests on, from reading `n` on: a gate before, between and after
        the samples, each inside both clocks' lease; the bracketing topology; and the chain of samples. */
    predicate Proves(m: Measurement, n: nat, before: real)
      requires reservation.Some?
      reads `stopped, `enabled, `reservation, `epoch
    {
      && Passes(n, before) && |m.samples| == SAMPLES && m.topologyOk && m.topologyAfter <= clock(n + 2)
      && (forall i | 0 <= i <= SAMPLES :: Gated(n, i))
      && Bracketed(m, reservation.value.start) && Chained(wire, roles, m.samples)
    }

    /** What makes sample `i` acceptable after those before it. */
    predicate Fits(m: Measurement, i: nat)
      requires i < |m.samples|
    {
      var s := m.samples[i];
      && Witnessed(wire, i, s) && InOrder(s) && ExactDeltas(wire, roles, i, s)
      && m.topologyBefore <= s.beforeStart <= s.afterEnd <= m.topologyAfter
      && (i > 0 ==> m.samples[i - 1].after == s.before && m.samples[i - 1].afterEnd <= s.beforeStart)
    }

    lemma FitsAll(m: Measurement, start: real)
      requires start <= m.topologyBefore <= m.topologyAfter && m.topologyAfter - m.topologyBefore <= WINDOW
      ensures (forall i | 0 <= i < |m.samples| :: Fits(m, i)) <==> Bracketed(m, start) && Chained(wire, roles, m.samples)
    {
      hide Witnessed, InOrder, ExactDeltas;
      if Bracketed(m, start) && Chained(wire, roles, m.samples) {
        forall i | 0 <= i < |m.samples|
          ensures Fits(m, i)
        {
        }
      }
      if forall i | 0 <= i < |m.samples| :: Fits(m, i) {
        forall i | 0 <= i < |m.samples|
          ensures Witnessed(wire, i, m.samples[i]) && InOrder(m.samples[i]) && ExactDeltas(wire, roles, i, m.samples[i])
          ensures i > 0 ==> m.samples[i - 1].after == m.samples[i].before && m.samples[i - 1].afterEnd <= m.samples[i].beforeStart
          ensures m.topologyBefore <= m.samples[i].beforeStart <= m.samples[i].afterEnd <= m.topologyAfter
        {
          assert Fits(m, i);
        }
      }
    }

    /** One sample against those before it. */
    method CheckNext(m: Measurement, i: nat) returns (r: Result<(), Denial>)
      requires i < |m.samples| && i < |wire.frames|
      ensures r.Ok? <==> Fits(m, i)
    {
      hide Witnessed, InOrder, ExactDeltas;
      var s := m.samples[i];
      r := CheckSample(s, i);
      if r.Err? { return; }
      if !(m.topologyBefore <= s.beforeStart <= s.afterEnd <= m.topologyAfter) {
        return Err(EvidenceInvalid);
      }
      if i > 0 {
        if !(m.samples[i - 1].afterEnd <= s.beforeStart) {
          return Err(EvidenceInvalid);
        }
        if m.samples[i - 1].after != s.before {
          return Err(DeltaUnexplained);
        }
      }
    }

    /** Where the readings stand before the gate of sample `i`, `n` being the gate before them all. */
    predicate Before(n: nat, i: nat)
      reads `ticks, `lastWall
    {
      ticks == GateAt(n, i) && lastWall == clock(Prior(n, i))
    }

    /** The gate of one sample, and the sample. */
    method OneSample(m: Measurement, ghost n: nat, i: nat) returns (r: Result<(), Denial>)
      requires Valid() && reservation.Some? && |m.samples| == SAMPLES && i < SAMPLES && Before(n, i)
      modifies this`ticks, this`lastWall, this`gates
      ensures Valid() && old(gates) <= gates
      ensures r.Ok? <==> Gated(n, i) && Fits(m, i)
      ensures r.Ok? ==> Before(n, i + 1) && |gates| == |old(gates)| + 1
    {
      hide Fits, Passes;
      var gate := Gate();
      if gate.Err? {
        return Err(gate.error);
      }
      r := CheckNext(m, i);
    }

    /** The loop over the samples, with its gates. */
    method Sampling(m: Measurement, ghost n: nat) returns (r: Result<(), Denial>, taken: seq<Sample>)
      requires Valid() && reservation.Some? && |m.samples| == SAMPLES && Before(n, 0)
      modifies this`ticks, this`lastWall, this`gates
      ensures Valid() && old(gates) <= gates && taken <= m.samples
      ensures r.Ok? <==> (forall i | 0 <= i <= SAMPLES :: Gated(n, i)) && (forall i | 0 <= i < |m.samples| :: Fits(m, i))
      ensures r.Ok? ==> taken == m.samples && |gates| == |old(gates)| + SAMPLES + 1
    {
      hide Valid, Fits, Passes, Gated, Before;
      taken := [];
      var i := 0;
      while i < SAMPLES
        invariant 0 <= i <= SAMPLES && Valid() && |gates| == |old(gates)| + i && old(gates) <= gates
        invariant Before(n, i) && taken == m.samples[..i]
        invariant forall k | 0 <= k < i :: Gated(n, k) && Fits(m, k)
      {
        r := OneSample(m, n, i);
        if r.Err? { return; }
        taken := taken + [m.samples[i]];
        i := i + 1;
      }
      r := LastGate(n);
      assert taken == m.samples;
    }

    method LastGate(ghost n: nat) returns (r: Result<(), Denial>)
      requires Valid() && reservation.Some? && Before(n, SAMPLES)
      modifies this`ticks, this`lastWall, this`gates
      ensures Valid() && old(gates) <= gates
      ensures r.Ok? <==> Gated(n, SAMPLES)
      ensures r.Ok? ==> |gates| == |old(gates)| + 1
    {
      hide Passes;
      var gate := Gate();
      return if gate.Ok? then Ok(()) else Err(gate.error);
    }

    /** The protected part of `finish`: a gate before, between and after the samples. */
    method Examine(m: Measurement) returns (r: Result<(), Denial>, taken: seq<Sample>)
      requires Valid() && reservation.Some?
      modifies this`ticks, this`lastWall, this`gates
      ensures Valid() && old(gates) <= gates
      ensures r.Ok? <==> old(Proves(m, ticks, lastWall))
      ensures r.Ok? ==> taken == m.samples && |gates| == |old(gates)| + SAMPLES + 2
      ensures taken <= m.samples
    {
      hide Chained, Valid, Fits, Passes, Gated;
      taken := [];
      ghost var n, start := ticks, reservation.value.start;
      var gate := Gate();
      if gate.Err? {
        return Err(gate.error), taken;
      }
      if |m.samples| != SAMPLES {
        return Err(EvidenceInvalid), taken;
      }
      if !m.topologyOk {
        return Err(TopologyUnproven), taken;
      }
      var seen := Wall();
      if !(reservation.value.start <= m.topologyBefore <= m.topologyAfter <= seen
           && m.topologyAfter - m.topologyBefore <= WINDOW) {
        return Err(EvidenceInvalid), taken;
      }
      FitsAll(m, start);
      r, taken := Sampling(m, n);
      forall i | 0 <= i <= SAMPLES
        ensures Gated(n, i) == old(Gated(ticks, i))
      {
      }
    }

    /** Publishes one terminal, never replaced.  Without a terminal before, it is verified if and only if
        everything the measurement rests on holds: every gate inside both clocks' lease, the bracket, and
        the chain of samples, over which every counter then telescopes. */
    method Finish(fixture: Option<Measurement>) returns (r: Result<Evidence, Denial>)
      requires Valid()
      modifies this`ticks, this`lastWall, this`gates, this`terminal, this`circuit
      ensures Valid() && old(gates) <= gates
      ensures r.Err? <==> old(terminal).None? && reservation.None?
      ensures r.Ok? ==> terminal == Some(r.value)
      ensures old(terminal).Some? ==> terminal == old(terminal)
      ensures old(terminal).None? && r.Ok? ==>
                && circuit == r.value.Unknown?
                && (r.value.Verified? <==> fixture.Some? && old(Proves(fixture.value, ticks, lastWall)))
                && Within(r.value.times)
      ensures old(terminal).None? && r.Ok? && r.value.Verified? ==>
                && r.value.samples == fixture.value.samples && |gates| == |old(gates)| + SAMPLES + 2
                && forall k | 0 <= k < |roles| ::
                     Explained(wire, roles[k], r.value.samples, r.value.samples[0].before, r.value.samples[SAMPLES - 1].after, k)
      ensures old(terminal).None? && r.Ok? && r.value.Unknown? ==>
                if fixture.Some? then r.value.samples <= fixture.value.samples else r.value.samples == []
    {
      if terminal.Some? {
        return Ok(terminal.value);
      }
      if reservation.None? {
        return Err(NotIssued);
      }
      var outcome: Result<(), Denial>;
      var taken := [];
      if fixture.Some? {
        outcome, taken := Examine(fixture.value);
      } else {
        var gate := Gate();
        outcome := Err(if gate.Err? then gate.error else EvidenceInvalid);
      }
      var now := Wall();
      var times := Closing(now);
      var evidence := if outcome.Ok? then Verified(taken, times) else Unknown(outcome.error, taken, times);
      if evidence.Verified? {
        forall k | 0 <= k < |roles|
          ensures Explained(wire, roles[k], evidence.samples, evidence.samples[0].before, evidence.samples[SAMPLES - 1].after, k)
        {
          Telescopes(wire, roles, evidence.samples, k);
        }
      }
      terminal, circuit := Some(evidence), evidence.Unknown?;
      return Ok(evidence);
    }

    function Closing(now: real): (t: Times)
      requires reservation.Some?
      reads this
    {
      var lease := reservation.value;
      var early := if now < lease.deadline then now else lease.deadline;
      Times(lease.start, if early < lease.start then lease.start else early, lease.deadline, now)
    }

    /** The published times are this lease's, and the end lies inside it. */
    predicate Within(t: Times)
      reads this
    {
      && reservation.Some? && t.start == reservation.value.start && t.deadline == reservation.value.deadline
      && t.start <= t.finished <= t.deadline
      && (t.start <= t.closed <= t.deadline ==> t.finished == t.closed)
    }

    /** Closes an issued run exactly once a gate refuses it; never accepts evidence. */
    method Expire() returns (r: Result<Evidence, Denial>)
      requires Valid()
      modifies this`ticks, this`lastWall, this`gates, this`terminal, this`circuit
      ensures Valid()
      ensures r.Err? <==> reservation.None? || (old(terminal).None? && old(Passes(ticks, lastWall)))
      ensures r.Err? ==> terminal == old(terminal) && circuit == old(circuit)
      ensures r.Ok? && old(terminal).Some? ==> terminal == old(terminal) && r.value == terminal.value
      ensures r.Ok? && old(terminal).None? ==> r.value.Unknown? && r.value.samples == [] && terminal == Some(r.value) && circuit
    {
      if reservation.None? {
        return Err(NotIssued);
      }
      if terminal.Some? {
        return Ok(terminal.value);
      }
      var gate := Gate();
      if gate.Err? {
        r := Finish(None);
      } else {
        return Err(NotExpired);
      }
    }
  }

  /** Counter `k` went from the first to the last reading by exactly its planned total. */
  predicate Explained(wire: Wire, role: Role, samples: seq<Sample>, first: seq<Value>, last: seq<Value>, k: nat) {
    && k < |first| && k < |last|
    && last[k].packets == first[k].packets + PlannedTotal(wire, role, samples).packets
    && last[k].bytes == first[k].bytes + PlannedTotal(wire, role, samples).bytes
  }
}
