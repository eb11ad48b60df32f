/** The invocation registry and the supervisor that publishes one terminal result. */
module HelperSupervisor {
  import opened Base
  import opened HelperProtocol
  import opened HelperKernel
  import opened HelperCleanup
  import opened HelperTranscript
  import opened HelperRuntime

  const MAX_INVOCATIONS := 256

  /** An invocation object as the registry sees it: its identity and its replay keys. */
  datatype Ticket = Ticket(id: nat, uuid: nat, nonce: nat, session: nat)

  // ----- registry -----

  datatype Slots = Slots(
    session: nat, seen: set<nat>, nonces: set<nat>,
    active: Option<(Ticket, nat)>,        // the invocation holding the slot and its owner
    circuit: bool, captured: nat)

  function Empty(session: nat): Slots { Slots(session, {}, {}, None, false, 0) }

  function Reserve(s: Slots, t: Ticket, owner: nat): Result<Slots, Reason> {
    if s.active.Some? then Err(SequenceInvalid)
    else if s.circuit || |s.seen| >= MAX_INVOCATIONS || t.session != s.session
            || t.uuid in s.seen || t.nonce in s.nonces then Err(Replay)
    else Ok(s.(active := Some((t, owner)), seen := s.seen + {t.uuid}, nonces := s.nonces + {t.nonce}))
  }

  predicate Holds(s: Slots, t: Ticket, owner: nat) {
    s.active.Some? && s.active.value.0.id == t.id && s.active.value.1 == owner
  }

  function Release(s: Slots, t: Ticket, successful: bool, owner: nat): Result<Slots, Reason> {
    if !Holds(s, t, owner) then Err(IdentityMismatch)
    else Ok(s.(active := None, circuit := s.circuit || !successful))
  }

  function Abort(s: Slots, t: Ticket, owner: nat): Result<Slots, Reason> {
    if t.session != s.session then Err(IdentityMismatch)
    else if s.active.Some? && s.active.value.1 != owner then Ok(s)
    else Ok(s.(circuit := true, active := None))
  }

  function Debit(s: Slots, amount: nat): Result<Slots, Reason> {
    if !(1 <= amount <= CHUNK) then Err(EvidenceInvalid)
    else if s.active.None? then Err(SequenceInvalid)
    else if s.captured + amount > MAX_AGGREGATE then Err(AggregateLimit)
    else Ok(s.(captured := s.captured + amount))
  }

  datatype Request =
    | ToReserve(t: Ticket, owner: nat)
    | ToRelease(t: Ticket, successful: bool, owner: nat)
    | ToAbort(t: Ticket, owner: nat)
    | ToDebit(amount: nat)

  /** One request; a refused one changes nothing. */
  function Serve(s: Slots, q: Request): Result<Slots, Reason> {
    match q
    case ToReserve(t, owner) => Reserve(s, t, owner)
    case ToRelease(t, ok, owner) => Release(s, t, ok, owner)
    case ToAbort(t, owner) => Abort(s, t, owner)
    case ToDebit(amount) => Debit(s, amount)
  }

  function ServeAll(s: Slots, qs: seq<Request>): Slots {
    if qs == [] then s
    else
      var before := ServeAll(s, qs[..|qs| - 1]);
      match Serve(before, qs[|qs| - 1])
      case Ok(after) => after
      case Err(_) => before
  }

  /** The tickets granted by a history, oldest first. */
  function Granted(s: Slots, qs: seq<Request>): seq<Ticket> {
    if qs == [] then []
    else
      var front, q := qs[..|qs| - 1], qs[|qs| - 1];
      Granted(s, front) + (if q.ToReserve? && Serve(ServeAll(s, front), q).Ok? then [q.t] else [])
  }

  /** What a registry state says of the tickets it granted. */
  ghost predicate Accounts(s: Slots, g: seq<Ticket>) {
    && |g| == |s.seen| <= MAX_INVOCATIONS && s.captured <= MAX_AGGREGATE
    && (forall i | 0 <= i < |g| :: g[i].uuid in s.seen && g[i].nonce in s.nonces && g[i].session == s.session)
    && (forall i, j | 0 <= i < j < |g| :: g[i].uuid != g[j].uuid && g[i].nonce != g[j].nonce)
    && (s.active.Some? ==> s.active.value.0 in g)
  }

  lemma GrantIsAccounted(s: Slots, g: seq<Ticket>, t: Ticket, owner: nat)
    requires Accounts(s, g) && Reserve(s, t, owner).Ok?
    ensures Accounts(Reserve(s, t, owner).value, g + [t])
  {
  }

  /** Over every history of requests: each uuid and nonce is granted at most once, never more than
      256 in all, never more captured bytes than the aggregate cap. */
  lemma {:induction false} RegistryHistory(session: nat, qs: seq<Request>)
    ensures Accounts(ServeAll(Empty(session), qs), Granted(Empty(session), qs))
    ensures ServeAll(Empty(session), qs).session == session
  {
    if qs != [] {
      var front, q := qs[..|qs| - 1], qs[|qs| - 1];
      RegistryHistory(session, front);
      if q.ToReserve? && Serve(ServeAll(Empty(session), front), q).Ok? {
        GrantIsAccounted(ServeAll(Empty(session), front), Granted(Empty(session), front), q.t, q.owner);
      }
    }
  }

  /** Only its owner frees the active slot, and once the circuit is open nothing is granted again. */
  lemma {:induction false} OnlyTheOwnerClears(s: Slots, qs: seq<Request>, owner: nat)
    requires s.active.Some? && s.active.value.1 == owner
    requires forall q | q in qs :: (q.ToRelease? || q.ToAbort?) ==> q.owner != owner
    ensures ServeAll(s, qs).active == s.active
  {
    if qs != [] {
      assert qs[|qs| - 1] in qs;
      assert forall q | q in qs[..|qs| - 1] :: q in qs;
      OnlyTheOwnerClears(s, qs[..|qs| - 1], owner);
    }
  }

  lemma {:induction false} OpenCircuitStaysOpen(s: Slots, qs: seq<Request>)
    requires s.circuit
    ensures ServeAll(s, qs).circuit && Granted(s, qs) == []
  {
    if qs != [] {
      OpenCircuitStaysOpen(s, qs[..|qs| - 1]);
    }
  }

  class Registry {
    const session: nat
    var seen: set<nat>
    var nonces: set<nat>
    var active: Option<Ticket>
    var owner: nat                    // of the active ticket
    var circuit: bool
    var captured: nat

    constructor (session: nat)
      ensures State() == Empty(session)
    {
      this.session := session;
      seen, nonces, active, owner, circuit, captured := {}, {}, None, 0, false, 0;
    }

    function State(): Slots
      reads this
    {
      Slots(session, seen, nonces, if active.Some? then Some((active.value, owner)) else None, circuit, captured)
    }

    predicate Mine(t: Ticket, who: nat)
      reads this
    {
      active.Some? && active.value.id == t.id && owner == who
    }

    method Grant(t: Ticket, who: nat) returns (r: Result<(), Reason>)
      modifies this
      ensures Answers(Reserve(old(State()), t, who), r, old(State()))
    {
      if active.Some? {
        return Err(SequenceInvalid);
      }
      if circuit || |seen| >= MAX_INVOCATIONS || t.session != session || t.uuid in seen || t.nonce in nonces {
        return Err(Replay);
      }
      owner, active := who, Some(t);
      seen, nonces := seen + {t.uuid}, nonces + {t.nonce};
      return Ok(());
    }

    method Finish(t: Ticket, successful: bool, who: nat) returns (r: Result<(), Reason>)
      modifies this
      ensures Answers(Release(old(State()), t, successful, who), r, old(State()))
    {
      if !Mine(t, who) {
        return Err(IdentityMismatch);
      }
      active := None;
      if !successful {
        circuit := true;
      }
      return Ok(());
    }

    /** Recovery of an interrupted reserve or finish; another attempt's slot is left alone. */
    method Drop(t: Ticket, who: nat) returns (r: Result<(), Reason>)
      modifies this
      ensures Answers(Abort(old(State()), t, who), r, old(State()))
    {
      if t.session != session {
        return Err(IdentityMismatch);
      }
      if active.Some? && owner != who {
        return Ok(());
      }
      circuit := true;
      if owner == who {
        active := None;
      }
      return Ok(());
    }

    method DebitData(amount: nat) returns (r: Result<(), Reason>)
      modifies this
      ensures Answers(Debit(old(State()), amount), r, old(State()))
    {
      if !(1 <= amount <= CHUNK) {
        return Err(EvidenceInvalid);
      }
      if active.None? {
        return Err(SequenceInvalid);
      }
      if captured + amount > MAX_AGGREGATE {
        return Err(AggregateLimit);
      }
      captured := captured + amount;
      return Ok(());
    }

    /** The fields now say what the specification says; a refusal changed nothing. */
    ghost predicate Answers(expected: Result<Slots, Reason>, r: Result<(), Reason>, before: Slots)
      reads this
    {
      match expected
      case Ok(after) => r == Ok(()) && State() == after
      case Err(reason) => r == Err(reason) && State() == before
    }

    /** One request under the lock. */
    method Handle(q: Request) returns (r: Result<(), Reason>)
      modifies this
      ensures match Serve(old(State()), q)
              case Ok(after) => r == Ok(()) && State() == after
              case Err(reason) => r == Err(reason) && State() == old(State())
    {
      match q
      case ToReserve(t, who) => r := Grant(t, who);
      case ToRelease(t, successful, who) => r := Finish(t, successful, who);
      case ToAbort(t, who) => r := Drop(t, who);
      case ToDebit(amount) => r := DebitData(amount);
    }
  }

  // ----- audit -----

  /** A frame log replayed: decoded, debited if it carries data, verified; the first refusal ends it. */
  function Replayed(inv: Invocation, s: Slots, frames: seq<seq<Byte>>): Result<(Transcript, Slots), Reason> {
    if frames == [] then Ok((SILENCE, s))
    else
      match Replayed(inv, s, frames[..|frames| - 1])
      case Err(reason) => Err(reason)
      case Ok(before) => ReplayOne(inv, before.0, before.1, frames[|frames| - 1])
  }

  function ReplayOne(inv: Invocation, t: Transcript, s: Slots, raw: seq<Byte>): Result<(Transcript, Slots), Reason> {
    match Decode(inv.binding, raw)
    case Err(reason) => Err(reason)
    case Ok(m) =>
      match if m.kind == Stdout || m.kind == Stderr then Debit(s, |m.payload|) else Ok(s)
      case Err(reason) => Err(reason)
      case Ok(debited) =>
        match Step(inv, t, m)
        case Err(reason) => Err(reason)
        case Ok(next) => Ok((next, debited))
  }

  lemma {:induction false} ReplayStops(inv: Invocation, s: Slots, frames: seq<seq<Byte>>, i: nat)
    requires i <= |frames| && Replayed(inv, s, frames[..i]).Err?
    ensures Replayed(inv, s, frames) == Replayed(inv, s, frames[..i])
    decreases |frames|
  {
    hide ReplayOne;
    if i < |frames| {
      var front := frames[..|frames| - 1];
      assert front[..i] == frames[..i];
      ReplayStops(inv, s, front, i);
    } else {
      assert frames[..i] == frames;
    }
  }

  lemma ReplayOneExact(inv: Invocation, t: Transcript, s: Slots, raw: seq<Byte>)
    requires s.active.Some? && Sane(inv, t)
    ensures var data := match Accept(inv, t, raw)
                        case Ok(u) => |u.out| + |u.err| - |t.out| - |t.err| case Err(_) => 0;
            match ReplayOne(inv, t, s, raw)
            case Ok(next) => Accept(inv, t, raw) == Ok(next.0) && data >= 0 && next.1 == s.(captured := s.captured + data)
                             && (data == 0 || s.captured + data <= MAX_AGGREGATE)
            case Err(_) => Accept(inv, t, raw).Err? || (data > 0 && s.captured + data > MAX_AGGREGATE)
  {
    hide Step, Decode;
    var decoded := Decode(inv.binding, raw);
    if decoded.Ok? {
      CodecExact(inv.binding, raw, decoded.value);
      if Step(inv, t, decoded.value).Ok? {
        StepMeans(inv, t, decoded.value);
      }
    }
  }

  /** What a transcript holds is nothing, or within what the session may still capture. */
  predicate Affordable(captured: nat, t: Transcript) {
    |t.out| + |t.err| == 0 || captured + |t.out| + |t.err| <= MAX_AGGREGATE
  }

  /** Accepted by the verifier, and within what the session may still capture, which is then spent. */
  predicate ReplaysAsHeard(inv: Invocation, s: Slots, frames: seq<seq<Byte>>) {
    var r, h := Replayed(inv, s, frames), Hear(inv, frames);
    && (r.Ok? <==> h.Ok? && Affordable(s.captured, h.value))
    && (r.Ok? ==> r.value == (h.value, s.(captured := s.captured + |h.value.out| + |h.value.err|)))
  }

  /** The audit's loop accepts exactly the logs that the verifier accepts and whose data fits what the session
      may still capture, and leaves exactly that much captured. */
  lemma {:induction false} ReplayExact(inv: Invocation, s: Slots, frames: seq<seq<Byte>>)
    requires s.active.Some?
    ensures ReplaysAsHeard(inv, s, frames)
  {
    if frames != [] {
      hide ReplaysAsHeard;
      var front, raw := frames[..|frames| - 1], frames[|frames| - 1];
      ReplayExact(inv, s, front);
      if Hear(inv, front).Ok? {
        HeardSane(inv, front);
        GrowingData(inv, Hear(inv, front).value, raw);
      }
      ReplayNext(inv, s, frames);
    }
  }

  lemma HeardSane(inv: Invocation, frames: seq<seq<Byte>>)
    requires Hear(inv, frames).Ok?
    ensures Sane(inv, Hear(inv, frames).value)
  {
    HeardMeans(inv, frames);
  }

  lemma ReplayNext(inv: Invocation, s: Slots, frames: seq<seq<Byte>>)
    requires s.active.Some? && frames != [] && ReplaysAsHeard(inv, s, frames[..|frames| - 1])
    requires var h := Hear(inv, frames[..|frames| - 1]);
             h.Ok? ==>
               && Sane(inv, h.value)
               && var u := Accept(inv, h.value, frames[|frames| - 1]);
                  u.Ok? ==> |u.value.out| >= |h.value.out| && |u.value.err| >= |h.value.err|
    ensures ReplaysAsHeard(inv, s, frames)
  {
    hide ReplayOne, Accept, Sane;
    var front, raw := frames[..|frames| - 1], frames[|frames| - 1];
    if Replayed(inv, s, front).Ok? {
      var before := Replayed(inv, s, front).value;
      ReplayOneExact(inv, before.0, before.1, raw);
    }
  }

  lemma GrowingData(inv: Invocation, t: Transcript, raw: seq<Byte>)
    requires Sane(inv, t)
    ensures var u := Accept(inv, t, raw); u.Ok? ==> |u.value.out| >= |t.out| && |u.value.err| >= |t.err|
  {
    hide Step, Decode;
    var decoded := Decode(inv.binding, raw);
    if decoded.Ok? {
      CodecExact(inv.binding, raw, decoded.value);
      if Step(inv, t, decoded.value).Ok? {
        StepMeans(inv, t, decoded.value);
      }
    }
  }

  // ----- supervisor -----

  /** What the helper came back with; `raised` when an interruption took the place of its return. */
  datatype Report = Report(reason: Option<Reason>, clean: bool, raised: bool)

  datatype Verdict = Completed | Failed(reason: Reason)

  datatype CleanupState = NoDispatch | ReapedClosed | Unproven

  datatype HelperResult = HelperResult(verdict: Verdict, cleanup: CleanupState, out: seq<Byte>, err: seq<Byte>)

  /** The result record exists only in these shapes: success with proven cleanup, or no output. */
  predicate Publishable(r: HelperResult) {
    && |r.out| <= 1048576 && |r.err| <= 4096
    && (if r.verdict == Completed then r.cleanup == ReapedClosed else r.out == r.err == [])
  }

  const FALLBACK := HelperResult(Failed(CleanupUnproven), Unproven, [], [])

  /** What the next frame does to the replay of the whole log. */
  lemma ReplayDecides(inv: Invocation, s: Slots, frames: seq<seq<Byte>>, i: nat)
    requires i < |frames| && Replayed(inv, s, frames[..i]).Ok?
    ensures var before := Replayed(inv, s, frames[..i]).value;
            && Replayed(inv, s, frames[..i + 1]) == ReplayOne(inv, before.0, before.1, frames[i])
            && (ReplayOne(inv, before.0, before.1, frames[i]).Err? ==>
                  Replayed(inv, s, frames) == Err(ReplayOne(inv, before.0, before.1, frames[i]).error))
  {
    hide ReplayOne;
    assert frames[..i + 1][..i] == frames[..i] && frames[..i + 1][i] == frames[i];
    if Replayed(inv, s, frames[..i + 1]).Err? {
      ReplayStops(inv, s, frames, i + 1);
    }
  }

  /** Registered, and not yet reaped and closed. */
  predicate Live(objects: map<Role, Proc>, role: Role) {
    role in objects && !(objects[role].closed && objects[role].reaped)
  }

  class Supervisor {
    const inv: Invocation
    const ticket: Ticket
    const me: nat
    const kernel: Kernel
    const registry: Registry
    const channel: Channel
    const transferred: seq<Row>
    const invoke: seq<Byte>            // the invoke frame as the helper receives it
    const killed: nat -> bool          // the cancel flag at each point where it is consulted
    const enabled: bool
    var terminal: Option<HelperResult>
    var reservationAttempted: bool
    var attempted: bool
    var clean: bool
    var interrupted: bool
    var verdict: Verdict
    var transcript: Option<Transcript>
    ghost var report: Option<Report>

    constructor (inv: Invocation, ticket: Ticket, me: nat, kernel: Kernel, registry: Registry, channel: Channel,
                 transferred: seq<Row>, invoke: seq<Byte>, killed: nat -> bool, enabled: bool)
      requires WellFormed(inv) && inv.binding == channel.binding && channel.Valid() && kernel.Valid()
      requires channel.frames == [] && !channel.closed && channel.finishedAt.None?
      requires kernel.objects == map[] && kernel.attempts == [] && kernel.polls == []
      ensures Fresh() && this.kernel == kernel && this.registry == registry && this.channel == channel
      ensures this.inv == inv && this.ticket == ticket && this.me == me && this.killed == killed
    {
      this.inv, this.ticket, this.me, this.kernel, this.registry, this.channel := inv, ticket, me, kernel, registry, channel;
      this.transferred, this.invoke, this.killed, this.enabled := transferred, invoke, killed, enabled;
      terminal, reservationAttempted, attempted, clean, interrupted := None, false, false, true, false;
      verdict, transcript, report := Failed(Disabled), None, None;
    }

    ghost predicate Valid()
      reads this, kernel, channel
    {
      WellFormed(inv) && inv.binding == channel.binding && channel.Valid() && kernel.Valid()
    }

    ghost predicate Fresh()
      reads this, kernel, channel
    {
      && Valid() && channel.frames == [] && !channel.closed && channel.finishedAt.None?
      && kernel.objects == map[] && kernel.attempts == [] && kernel.polls == []
      && terminal.None? && !reservationAttempted && !attempted && clean && !interrupted
      && verdict == Failed(Disabled) && transcript.None? && report.None?
    }

    /** Every transferred descriptor was closed exactly once, while still the pinned object, and
        no close was ever refused. */
    ghost predicate DescriptorsSettled()
      reads kernel`pins, kernel`attempts
    {
      && kernel.Pinned() && (forall a | a in kernel.attempts :: a.closed)
      && Distinct(ClosedBy(kernel.attempts))
      && (forall fd :: fd in ClosedBy(kernel.attempts) <==> fd in Fds(kernel.catalog))
    }

    /** What a completed verdict already knows before the final sweep. */
    ghost predicate Earned()
      reads this, kernel, channel
    {
      && transcript.Some? && transcript.value.complete && Hear(inv, channel.frames) == Ok(transcript.value)
      && {HelperRole, ChildRole} <= kernel.objects.Keys && kernel.Pinned()
    }

    /** This supervisor holds the registry slot. */
    predicate Owned()
      reads `reservationAttempted, registry
    {
      reservationAttempted && Holds(registry.State(), ticket, me) && ticket.session == registry.State().session
    }

    // ----- what each part meets first -----

    function ClaimTrouble(slots: Slots): Option<Trouble> {
      match Reserve(slots, ticket, me) case Ok(_) => None case Err(reason) => Some(Violation(reason))
    }

    /** No kill yet, the slot is granted, the helper is secured, still no kill, the spawn is answered. */
    function DispatchTrouble(slots: Slots, n: nat, escrowed: bool): Option<Trouble> {
      Then(Unless(!killed(0), Killed), Then(ClaimTrouble(slots), Then(kernel.SecureTrouble(n, escrowed),
        Then(Unless(!killed(1), Killed), kernel.Asked(n + 3, SpawnResponseLost)))))
    }

    predicate Attempts(slots: Slots) { enabled && !killed(0) && Reserve(slots, ticket, me).Ok? }

    function AuditTrouble(slots: Slots, frames: seq<seq<Byte>>): Option<Trouble> {
      match Replayed(inv, slots, frames)
      case Err(reason) => Some(Violation(reason))
      case Ok((t, _)) => Unless(t.complete || t.error.Some?, IncompleteOutput)
    }

    /** After the dispatch: the helper's own interruption, then the audit of its log, then its return, which
        decides only when the log holds no error frame. */
    function ReturnTrouble(slots: Slots, frames: seq<seq<Byte>>, report: Report): Option<Trouble> {
      Then(if report.raised then Some(Interrupt) else None,
        Then(AuditTrouble(slots, frames), Unless(ErrorOf(frames).Some? || report.reason.None?, IncompleteOutput)))
    }

    /** The error frame of an accepted log. */
    function ErrorOf(frames: seq<seq<Byte>>): Option<(Reason, bool)> {
      if Hear(inv, frames).Ok? then Hear(inv, frames).value.error else None
    }

    function ClockTrouble(n: nat, ended: Option<Time>): Option<Trouble> {
      Then(kernel.env(n).early, Then(Unless(ended.Some?, EvidenceInvalid),
        Then(Unless(ended.Some? ==> NotBefore(ended.value, kernel.env(n).time), ClockRollback),
          Unless(kernel.env(n).time.mono <= inv.deadline && kernel.env(n).time.wall <= inv.started.wall + inv.timing.command, Timeout))))
    }

    // ----- the parts -----

    /** Reserve the registry slot for this supervisor. */
    method Claim() returns (r: Result<(), Trouble>)
      requires !attempted
      modifies this`reservationAttempted, this`attempted, registry
      ensures r == Told(ClaimTrouble(old(registry.State()))) && attempted == r.Ok?
      ensures registry.State() == if r.Ok? then Reserve(old(registry.State()), ticket, me).value else old(registry.State())
      ensures attempted ==> Owned() && registry.State().circuit == old(registry.State().circuit)
    {
      reservationAttempted := true;
      var reserved := registry.Handle(ToReserve(ticket, me));
      if reserved.Err? {
        return Err(Violation(reserved.error));
      }
      attempted := true;
      return Ok(());
    }

    /** Reserve the slot, escrow and register the helper, commit its dispatch. */
    method Dispatch() returns (r: Result<(), Trouble>)
      requires Fresh() && enabled
      modifies this`reservationAttempted, this`attempted, registry, kernel`tick, kernel`escrow, kernel`objects
      ensures Valid()
      ensures r == Told(DispatchTrouble(old(registry.State()), old(kernel.tick), HelperRole in old(kernel.escrow)))
      ensures attempted <==> Attempts(old(registry.State()))
      ensures attempted ==> registry.State() == Reserve(old(registry.State()), ticket, me).value
      ensures kernel.objects == if attempted && kernel.Registers(old(kernel.tick), HelperRole in old(kernel.escrow))
                                then map[HelperRole := RUNNING] else map[]
      ensures r.Ok? ==> attempted && HelperRole in kernel.objects && !killed(1)
      ensures attempted ==> Owned() && registry.State().circuit == old(registry.State().circuit)
    {
      hide Kernel.ProcsOk, Kernel.FdsOk, WellFormed, Kernel.SecureTrouble, Kernel.Registers, ClaimTrouble, Reserve, Owned,
        Registry.State;
      ClaimedExactly(registry.State());
      RegistersIfSecured(kernel, kernel.tick, HelperRole in kernel.escrow);
      if killed(0) {
        return Err(Violation(Killed));
      }
      r := Claim();
      if r.Err? { return; }
      r := kernel.Secure(HelperRole);
      if r.Err? { return; }
      if killed(1) {
        return Err(Violation(Killed));
      }
      var spawned := kernel.Observe();
      return match spawned
        case Err(trouble) => Err(trouble)
        case Ok(yes) => if yes then Ok(()) else Err(Violation(SpawnResponseLost));
    }

    lemma ClaimedExactly(slots: Slots)
      ensures ClaimTrouble(slots).None? <==> Reserve(slots, ticket, me).Ok?
    {
    }

    /** Replays the frame log into an independent verifier, debiting the session for the data. */
    method Audit() returns (r: Result<Transcript, Trouble>)
      requires inv.binding == channel.binding
      modifies registry
      ensures match AuditTrouble(old(registry.State()), channel.frames)
              case Some(trouble) => r == Err(trouble)
              case None => r.Ok? && (r.value, registry.State()) == Replayed(inv, old(registry.State()), channel.frames).value
      ensures r.Ok? ==> Hear(inv, channel.frames) == Ok(r.value) && (r.value.complete || r.value.error.Some?)
      ensures registry.State() == old(registry.State()).(captured := registry.State().captured)
    {
      hide Hear, Decode, Step;
      var verifier := new Verifier(inv);
      var i := 0;
      while i < |channel.frames|
        invariant 0 <= i <= |channel.frames| && fresh(verifier)
        invariant verifier.Valid() && !verifier.failed && verifier.inv == inv
        invariant verifier.accepted == channel.frames[..i]
        invariant registry.State() == old(registry.State()).(captured := registry.State().captured)
        invariant Replayed(inv, old(registry.State()), channel.frames[..i]) == Ok((verifier.t, registry.State()))
      {
        ghost var slots := old(registry.State());
        assert channel.frames[..i + 1][..i] == channel.frames[..i];
        ReplayDecides(inv, slots, channel.frames, i);
        var raw := channel.frames[i];
        var decoded := Decode(inv.binding, raw);
        if decoded.Err? {
          return Err(Violation(decoded.error));
        }
        if decoded.value.kind == Stdout || decoded.value.kind == Stderr {
          var debited := registry.Handle(ToDebit(|decoded.value.payload|));
          if debited.Err? {
            return Err(Violation(debited.error));
          }
        }
        var accepted := verifier.AcceptFrame(raw);
        if accepted.Err? {
          return Err(Violation(accepted.error));
        }
        i := i + 1;
      }
      assert channel.frames[..i] == channel.frames;
      var ok := verifier.Finish();
      if !ok {
        return Err(Violation(IncompleteOutput));
      }
      return Ok(verifier.t);
    }

    /** The standalone helper, on this kernel and channel. */
    method RunHelper() returns (reason: Option<Reason>, helperClean: bool, raised: bool)
      requires Valid() && channel.frames == [] && !channel.closed && kernel.polls == [] && kernel.attempts == []
      modifies this`report, kernel, channel
      ensures Valid() && kernel.objects.Keys >= old(kernel.objects.Keys) && channel.closed
      ensures report == Some(Report(reason, helperClean, raised))
      ensures kernel.objects - {ChildRole} == old(kernel.objects) - {ChildRole}
      ensures reason.None? ==> ChildRole in kernel.objects && kernel.Pinned() && ExitsZero(kernel.polls)
      ensures kernel.cleanupFailed || helperClean
    {
      hide Hear, Joined, Chunks, Kernel.ProcsOk, Kernel.FdsOk, Kernel.Pinned, WellFormed, Faithful, ExitsZero;
      var helper := new Helper(inv, kernel, channel, transferred);
      reason, helperClean, raised := helper.Run(invoke);
      report := Some(Report(reason, helperClean, raised));
    }

    /** The helper's run, and what its log and its return say. */
    method Judge() returns (r: Result<(), Trouble>)
      requires Valid() && channel.frames == [] && !channel.closed && kernel.polls == [] && kernel.attempts == []
      requires HelperRole in kernel.objects && verdict == Failed(Disabled) && clean && transcript.None?
      modifies this`clean, this`verdict, this`transcript, this`report, registry, kernel, channel
      ensures Valid() && report.Some?
      ensures registry.State() == old(registry.State()).(captured := registry.State().captured)
      ensures r == Told(ReturnTrouble(old(registry.State()), channel.frames, report.value))
      ensures r.Err? ==> verdict == Failed(Disabled)
      ensures r.Ok? ==> verdict == match ErrorOf(channel.frames) case Some(e) => Failed(e.0) case None => Completed
      ensures clean <==> report.value.raised
                         || (report.value.clean && (r.Ok? && ErrorOf(channel.frames).Some? ==> ErrorOf(channel.frames).value.1))
      ensures kernel.objects - {ChildRole} == old(kernel.objects) - {ChildRole} && HelperRole in kernel.objects
      ensures kernel.cleanupFailed || report.value.clean
      ensures verdict == Completed ==> Earned() && report.value.reason.None? && !report.value.raised
    {
      hide Hear, Kernel.ProcsOk, Kernel.FdsOk, Kernel.Pinned, WellFormed, Replayed, ExitsZero;
      var reason, helperClean, raised := RunHelper();
      if raised {
        return Err(Interrupt);
      }
      clean := helperClean;
      var audited := Audit();
      if audited.Err? {
        return Err(audited.error);
      }
      transcript := Some(audited.value);
      if audited.value.error.Some? {
        verdict, clean := Failed(audited.value.error.value.0), clean && audited.value.error.value.1;
      } else {
        if !(reason.None? && audited.value.complete && channel.closed) {
          return Err(Violation(IncompleteOutput));
        }
        verdict := Completed;
      }
      return Ok(());
    }

    /** The protected part: dispatch, run the helper, audit its log. */
    method Work() returns (r: Result<(), Trouble>)
      requires Fresh() && enabled
      modifies this`reservationAttempted, this`attempted, this`clean, this`verdict, this`transcript, this`report
      modifies registry, kernel, channel
      ensures Valid() && (attempted ==> Owned() && registry.State().circuit == old(registry.State().circuit))
      ensures attempted <==> Attempts(old(registry.State()))
      ensures r == Told(WorkTrouble(old(registry.State()), old(kernel.tick), HelperRole in old(kernel.escrow), channel.frames, report))
      ensures report.None? <==> DispatchTrouble(old(registry.State()), old(kernel.tick), HelperRole in old(kernel.escrow)).Some?
      ensures r.Err? ==> verdict == Failed(Disabled)
      ensures r.Ok? ==> verdict == match ErrorOf(channel.frames) case Some(e) => Failed(e.0) case None => Completed
      ensures clean <==> report.None? || report.value.raised
                         || (report.value.clean && (r.Ok? && ErrorOf(channel.frames).Some? ==> ErrorOf(channel.frames).value.1))
      ensures HelperRole in kernel.objects <==> attempted && kernel.Registers(old(kernel.tick), HelperRole in old(kernel.escrow))
      ensures HelperRole in kernel.objects ==> kernel.objects[HelperRole] == RUNNING
      ensures HelperRole in kernel.objects || kernel.objects == map[]
      ensures report.Some? ==> HelperRole in kernel.objects && (kernel.cleanupFailed || report.value.clean)
      ensures verdict == Completed ==> r.Ok? && report.Some? && Earned() && report.value.reason.None? && !report.value.raised
    {
      hide Hear, Kernel.ProcsOk, Kernel.FdsOk, Kernel.Pinned, WellFormed, AuditTrouble, DispatchTrouble, ReturnTrouble,
        Kernel.Registers, Attempts, Earned, ErrorOf;
      r := Dispatch();
      if r.Err? { return; }
      ghost var before := kernel.objects;
      r := Judge();
      SameElsewhere(before, kernel.objects, ChildRole, HelperRole);
    }

    /** Both roles, recovered by scope: the child may have outlived the helper. */
    method SweepProcesses() returns (hadProcess: bool)
      requires Valid()
      modifies this`clean, this`interrupted, kernel`tick, kernel`tally, kernel`objects, kernel`cleanupFailed
      ensures kernel.Valid() && kernel.objects.Keys == old(kernel.objects.Keys)
      ensures clean ==> forall role | role in kernel.objects :: kernel.Gone(role)
      ensures clean ==> (hadProcess <==> old(Live(kernel.objects, ChildRole)) || old(Live(kernel.objects, HelperRole)))
      ensures old(kernel.cleanupFailed) ==> kernel.cleanupFailed
      ensures !old(kernel.cleanupFailed) ==> (clean <==> old(clean) && !kernel.cleanupFailed)
    {
      hide Kernel.ProcsOk, Kernel.FdsOk, WellFormed;
      var last := if channel.finishedAt.Some? then channel.finishedAt.value else inv.started;
      ghost var before := kernel.objects;
      var childClean, childFound, a := RecoverCleanup(kernel, ChildRole, inv.timing, false, last);
      ghost var between := kernel.objects;
      SameElsewhere(before, between, ChildRole, HelperRole);
      var helperClean, helperFound, b := RecoverCleanup(kernel, HelperRole, inv.timing, verdict == Completed, last);
      SameElsewhere(between, kernel.objects, HelperRole, ChildRole);
      interrupted := interrupted || a || b;
      clean := clean && childClean && helperClean;
      forall role | clean && role in kernel.objects
        ensures kernel.Gone(role)
      {
        match role
        case ChildRole => assert ChildRole in between;
        case HelperRole =>
      }
      return childFound || helperFound;
    }

    /** Nothing is left of the run: no cleanup failed, every transferred descriptor is closed, no close was refused. */
    predicate Swept()
      reads kernel`cleanupFailed, kernel`closed, kernel`fdCleanupFailed
    {
      !kernel.cleanupFailed && kernel.closed == Fds(kernel.catalog) && !kernel.fdCleanupFailed
    }

    /** Both processes, every remaining descriptor, and every failure latch. */
    method Sweep() returns (hadProcess: bool)
      requires Valid()
      modifies this`clean, this`interrupted, kernel
      ensures kernel.Valid() && kernel.objects.Keys == old(kernel.objects.Keys)
      ensures old(kernel.Pinned()) ==> kernel.Pinned()
      ensures clean <==> old(clean) && Swept()
      ensures old(kernel.cleanupFailed) ==> kernel.cleanupFailed
      ensures clean ==> forall role | role in kernel.objects :: kernel.Gone(role)
      ensures clean && kernel.Pinned() ==> DescriptorsSettled()
      ensures clean ==> (hadProcess <==> old(Live(kernel.objects, ChildRole)) || old(Live(kernel.objects, HelperRole)))
    {
      hide Kernel.ProcsOk, WellFormed, Live;
      hadProcess := SweepProcesses();
      var closing := kernel.CloseRemaining();
      interrupted := interrupted || closing == Err(Interrupt);
      clean := clean && closing == Ok(true) && !kernel.cleanupFailed;
    }

    /** The clock at call `n` is readable, not before the helper's end, and within both limits. */
    predicate EndsInTime(n: nat)
      reads channel`finishedAt
    {
      && kernel.ClockAt(n).Ok? && channel.finishedAt.Some? && NotBefore(channel.finishedAt.value, kernel.ClockAt(n).value)
      && kernel.ClockAt(n).value.mono <= inv.deadline
      && kernel.ClockAt(n).value.wall <= inv.started.wall + inv.timing.command
    }

    /** A completed run must still be in time, and its clock must not have gone back. */
    method FinalClock()
      modifies this`interrupted, this`verdict, kernel`tick, kernel`tally
      ensures verdict == Completed <==> old(verdict) == Completed && EndsInTime(old(kernel.tick))
      ensures old(verdict) == Completed ==>
                && kernel.tick == old(kernel.tick) + 1
                && verdict == match ClockTrouble(old(kernel.tick), channel.finishedAt)
                              case None => Completed case Some(trouble) => Failed(FiniteReason(trouble))
      ensures old(verdict) != Completed ==> verdict == old(verdict)
    {
      if verdict == Completed {
        var now := kernel.ReadClock();
        if now.Err? {
          verdict, interrupted := Failed(FiniteReason(now.error)), interrupted || now.error == Interrupt;
        } else if channel.finishedAt.None? {
          verdict := Failed(EvidenceInvalid);
        } else if !NotBefore(channel.finishedAt.value, now.value) {
          verdict := Failed(ClockRollback);
        } else if !(now.value.mono <= inv.deadline && now.value.wall <= inv.started.wall + inv.timing.command) {
          verdict := Failed(Timeout);
        }
      }
    }

    /** What a late kill makes of a verdict: anything but an unproven cleanup becomes a kill. */
    function AfterKill(v: Verdict): Verdict { if killed(2) && v != Failed(CleanupUnproven) then Failed(Killed) else v }

    function CleanupOf(safe: bool, hadProcess: bool): CleanupState {
      if !safe then Unproven else if hadProcess then ReapedClosed else NoDispatch
    }

    /** The one publication.  The registry lets go of the slot before a success is visible, and
        any other outcome of a held slot frees it and opens the circuit. */
    method Publish(hadProcess: bool)
      requires terminal.None? && (verdict == Completed ==> transcript.Some?)
      requires attempted ==> Owned()
      requires verdict == Completed ==> attempted
      modifies this`terminal, this`verdict, registry
      ensures terminal.Some? && Publishable(terminal.value)
      ensures var v, cleanup := AfterKill(old(verdict)), CleanupOf(clean, hadProcess);
              var record := if v == Completed then HelperResult(v, cleanup, transcript.value.out, transcript.value.err)
                            else HelperResult(v, cleanup, [], []);
              terminal.value == if Publishable(record) then record else FALLBACK
      ensures terminal.value.verdict == Completed ==>
                && old(verdict) == Completed && clean && hadProcess && !killed(2)
                && terminal.value.out == transcript.value.out && terminal.value.err == transcript.value.err
                && registry.State() == old(registry.State()).(active := None)
      ensures terminal.value.verdict != Completed && attempted ==>
                registry.State() == old(registry.State()).(active := None, circuit := true)
    {
      if killed(2) && verdict != Failed(CleanupUnproven) {
        verdict := Failed(Killed);
      }
      var cleanup := if !clean then Unproven else if hadProcess then ReapedClosed else NoDispatch;
      var record := if verdict == Completed
                    then HelperResult(verdict, cleanup, transcript.value.out, transcript.value.err)
                    else HelperResult(verdict, cleanup, [], []);
      if !Publishable(record) {
        var aborted := registry.Handle(ToAbort(ticket, me));
        terminal := Some(FALLBACK);
        return;
      }
      if Holds(registry.State(), ticket, me) {
        var released := registry.Handle(ToRelease(ticket, verdict == Completed, me));
      } else if reservationAttempted {
        var aborted := registry.Handle(ToAbort(ticket, me));
      }
      terminal := Some(record);
    }

    // ----- the run as a whole, from the state it began in -----

    /** The trouble that ends the protected part, if any; a disabled supervisor has no protected part. */
    function WorkTrouble(slots: Slots, n: nat, escrowed: bool, frames: seq<seq<Byte>>, report: Option<Report>): Option<Trouble> {
      Then(DispatchTrouble(slots, n, escrowed),
        if report.None? || !Attempts(slots) then None
        else ReturnTrouble(Reserve(slots, ticket, me).value, frames, report.value))
    }

    /** The verdict of a clean run that is not killed at publication. */
    function Judged(slots: Slots, n: nat, escrowed: bool, frames: seq<seq<Byte>>, report: Option<Report>, last: nat, ended: Option<Time>)
      : Verdict
    {
      if !enabled then Failed(Disabled)
      else
        match WorkTrouble(slots, n, escrowed, frames, report)
        case Some(trouble) => Failed(FiniteReason(trouble))
        case None =>
          match ErrorOf(frames)
          case Some(error) => Failed(error.0)
          case None =>
            match ClockTrouble(last, ended) case Some(trouble) => Failed(FiniteReason(trouble)) case None => Completed
    }

    /** The protected part and its exception handler. */
    method TryWork()
      requires Fresh()
      modifies this`reservationAttempted, this`attempted, this`clean, this`interrupted, this`verdict, this`transcript, this`report
      modifies registry, kernel, channel
      ensures Valid() && (attempted ==> Owned() && registry.State().circuit == old(registry.State().circuit))
      ensures attempted <==> Attempts(old(registry.State()))
      ensures verdict == if !enabled then Failed(Disabled)
                         else match WorkTrouble(old(registry.State()), old(kernel.tick), HelperRole in old(kernel.escrow), channel.frames, report)
                              case Some(trouble) => Failed(FiniteReason(trouble))
                              case None => match ErrorOf(channel.frames) case Some(error) => Failed(error.0) case None => Completed
      ensures enabled ==> (report.None? <==> DispatchTrouble(old(registry.State()), old(kernel.tick), HelperRole in old(kernel.escrow)).Some?)
      ensures !enabled ==> report.None?
      ensures !clean ==> kernel.cleanupFailed || (report.Some? && ErrorOf(channel.frames).Some? && !ErrorOf(channel.frames).value.1)
      ensures clean ==> report.None? || report.value.raised || report.value.clean
      ensures HelperRole in kernel.objects <==> attempted && kernel.Registers(old(kernel.tick), HelperRole in old(kernel.escrow))
      ensures HelperRole in kernel.objects ==> kernel.objects[HelperRole] == RUNNING
      ensures HelperRole in kernel.objects || kernel.objects == map[]
      ensures report.Some? ==> HelperRole in kernel.objects
      ensures verdict == Completed ==> enabled && attempted && Earned() && !killed(0) && !killed(1)
                                       && report.Some? && report.value.reason.None? && !report.value.raised
    {
      hide Hear, Kernel.ProcsOk, Kernel.FdsOk, Kernel.Pinned, WellFormed, AuditTrouble, Kernel.SecureTrouble, Kernel.Asked,
        Kernel.Registers, Reserve, ClaimTrouble, Replayed;
      if enabled {
        var worked := Work();
        if worked.Err? {
          verdict, interrupted := Failed(FiniteReason(worked.error)), interrupted || worked.error == Interrupt;
        }
      }
    }

    /** Everything after the protected part, up to the publication. */
    method SettleUp() returns (hadProcess: bool)
      requires Valid() && (!attempted ==> kernel.objects == map[])
      modifies this`clean, this`interrupted, this`verdict, kernel, channel`closed
      ensures channel.closed && channel.frames == old(channel.frames) && channel.finishedAt == old(channel.finishedAt)
      ensures clean <==> old(clean) && (attempted ==> Swept())
      ensures old(kernel.cleanupFailed) ==> kernel.cleanupFailed
      ensures clean && attempted ==>
                && (forall role | role in kernel.objects :: kernel.Gone(role))
                && (hadProcess <==> old(Live(kernel.objects, ChildRole)) || old(Live(kernel.objects, HelperRole)))
      ensures kernel.objects.Keys == old(kernel.objects.Keys) && (!attempted ==> !hadProcess)
      ensures clean && attempted && old(kernel.Pinned()) ==> DescriptorsSettled()
      ensures !clean ==> verdict == Failed(CleanupUnproven)
      ensures clean && old(verdict) != Completed ==> verdict == old(verdict)
      ensures clean && old(verdict) == Completed ==>
                && kernel.tick > 0 && (verdict == Completed <==> EndsInTime(kernel.tick - 1))
                && verdict == match ClockTrouble(kernel.tick - 1, channel.finishedAt)
                              case None => Completed case Some(trouble) => Failed(FiniteReason(trouble))
    {
      hide Kernel.ProcsOk, Kernel.FdsOk, Kernel.Gone, WellFormed, Live, EndsInTime, ClockTrouble;
      hadProcess := false;
      if attempted {
        hadProcess := Sweep();
      }
      channel.closed := true;
      if !clean {
        verdict := Failed(CleanupUnproven);
      }
      FinalClock();
    }

    /** What a success needs: enabled, no kill at any of its three points, a granted slot, a secured helper, an
        answered spawn, a helper that returned no reason and was not interrupted, a complete log whose data the
        session may still capture, a clean sweep, and a last clock reading in time. */
    predicate Deserved(slots: Slots, n: nat, escrowed: bool)
      reads this, kernel, channel
    {
      && enabled && !killed(0) && !killed(1) && !killed(2) && Reserve(slots, ticket, me).Ok?
      && kernel.SecureTrouble(n, escrowed).None? && kernel.CheckAt(n + 3) == Ok(true)
      && Hear(inv, channel.frames).Ok? && Hear(inv, channel.frames).value.complete
      && Affordable(slots.captured, Hear(inv, channel.frames).value)
      && Swept() && kernel.tick > 0 && EndsInTime(kernel.tick - 1)
    }

    lemma ReturnExact(slots: Slots, frames: seq<seq<Byte>>, report: Report)
      requires slots.active.Some?
      ensures ReturnTrouble(slots, frames, report).None? && ErrorOf(frames).None? <==>
              && !report.raised && report.reason.None? && Hear(inv, frames).Ok? && Hear(inv, frames).value.complete
              && Affordable(slots.captured, Hear(inv, frames).value)
    {
      hide Replayed, Hear;
      ReplayExact(inv, slots, frames);
      if Hear(inv, frames).Ok? {
        HeardSane(inv, frames);
      }
    }

    lemma DispatchExact(slots: Slots, n: nat, escrowed: bool)
      ensures DispatchTrouble(slots, n, escrowed).None? <==>
              && !killed(0) && !killed(1) && Reserve(slots, ticket, me).Ok?
              && kernel.SecureTrouble(n, escrowed).None? && kernel.CheckAt(n + 3) == Ok(true)
      ensures DispatchTrouble(slots, n, escrowed).None? ==>
                Reserve(slots, ticket, me).value.active.Some? && Reserve(slots, ticket, me).value.captured == slots.captured
    {
      hide Kernel.SecureTrouble;
    }

    /** When the verdict of a clean run that is not killed is a success. */
    lemma JudgedExact(slots: Slots, n: nat, escrowed: bool, frames: seq<seq<Byte>>, report: Option<Report>, last: nat, ended: Option<Time>)
      requires enabled ==> (report.None? <==> DispatchTrouble(slots, n, escrowed).Some?)
      ensures Judged(slots, n, escrowed, frames, report, last, ended) == Completed <==>
              && enabled && !killed(0) && !killed(1) && Reserve(slots, ticket, me).Ok?
              && kernel.SecureTrouble(n, escrowed).None? && kernel.CheckAt(n + 3) == Ok(true)
              && report.Some? && !report.value.raised && report.value.reason.None?
              && Hear(inv, frames).Ok? && Hear(inv, frames).value.complete
              && Affordable(slots.captured, Hear(inv, frames).value)
              && ClockTrouble(last, ended).None?
    {
      hide Hear, Kernel.SecureTrouble, ReturnTrouble, DispatchTrouble, ErrorOf, ClockTrouble, Reserve;
      DispatchExact(slots, n, escrowed);
      if report.Some? && DispatchTrouble(slots, n, escrowed).None? {
        ReturnExact(Reserve(slots, ticket, me).value, frames, report.value);
      }
    }

    lemma CompleteHasNoError(frames: seq<seq<Byte>>)
      ensures Hear(inv, frames).Ok? && Hear(inv, frames).value.complete ==> ErrorOf(frames).None?
    {
      hide Hear;
      if Hear(inv, frames).Ok? {
        HeardSane(inv, frames);
      }
    }

    lemma ClockExact(n: nat)
      ensures EndsInTime(n) <==> ClockTrouble(n, channel.finishedAt).None?
    {
    }

    lemma CompletedIsPublishable()
      requires WellFormed(inv) && Hear(inv, channel.frames).Ok?
      ensures var t := Hear(inv, channel.frames).value; Publishable(HelperResult(Completed, ReapedClosed, t.out, t.err))
    {
      hide Hear;
      HeardSane(inv, channel.frames);
    }

    /** The run up to its publication. */
    method Conduct() returns (hadProcess: bool)
      requires Fresh()
      modifies this`reservationAttempted, this`attempted, this`clean, this`interrupted, this`verdict, this`transcript, this`report
      modifies registry, kernel, channel
      ensures channel.closed && (attempted ==> Owned() && registry.State().circuit == old(registry.State().circuit))
      ensures attempted <==> Attempts(old(registry.State()))
      ensures enabled ==> (report.None? <==> DispatchTrouble(old(registry.State()), old(kernel.tick), HelperRole in old(kernel.escrow)).Some?)
      ensures verdict ==
                if !clean then Failed(CleanupUnproven)
                else Judged(old(registry.State()), old(kernel.tick), HelperRole in old(kernel.escrow), channel.frames, report,
                            if kernel.tick > 0 then kernel.tick - 1 else 0, channel.finishedAt)
      ensures clean ==> (attempted ==> Swept()) && (hadProcess <==> HelperRole in kernel.objects)
      ensures !clean ==> !Swept() || (report.Some? && ErrorOf(channel.frames).Some? && !ErrorOf(channel.frames).value.1)
      ensures HelperRole in kernel.objects <==>
                attempted && kernel.Registers(old(kernel.tick), HelperRole in old(kernel.escrow))
      ensures verdict == Completed ==>
                && clean && attempted && HelperRole in kernel.objects && kernel.tick > 0 && EndsInTime(kernel.tick - 1)
                && transcript.Some? && transcript.value.complete && Hear(inv, channel.frames) == Ok(transcript.value)
                && kernel.Gone(HelperRole) && kernel.Gone(ChildRole) && DescriptorsSettled()
    {
      hide Hear, Kernel.ProcsOk, Kernel.FdsOk, Kernel.Gone, Kernel.Pinned, WellFormed, DescriptorsSettled, EndsInTime, ClockTrouble,
        DispatchTrouble, Attempts, Kernel.Registers, ErrorOf, ReturnTrouble, Owned, Reserve;
      TryWork();
      hadProcess := SettleUp();
    }

    /** One run, whatever the kernel, the wire and the kill switch do.  It always publishes a record.  The
        record is a success exactly when it is deserved; then the transcript is complete, both processes are
        reaped and closed, every transferred descriptor was closed exactly once while still the pinned
        object, no close ever failed, and the registry slot is free.  Any other record carries the reason of
        what went wrong first, a late kill, or the unproven cleanup, and says what became of the processes. */
    method Run() returns (result: HelperResult)
      requires Fresh()
      modifies this, registry, kernel, channel
      ensures terminal == Some(result) && Publishable(result) && channel.closed
      ensures result.verdict == Completed <==>
                && Deserved(old(registry.State()), old(kernel.tick), HelperRole in old(kernel.escrow))
                && report.Some? && report.value.reason.None? && !report.value.raised
      ensures result.verdict ==
                if !clean then Failed(CleanupUnproven)
                else AfterKill(Judged(old(registry.State()), old(kernel.tick), HelperRole in old(kernel.escrow), channel.frames, report,
                                      if kernel.tick > 0 then kernel.tick - 1 else 0, channel.finishedAt))
      ensures result.cleanup == CleanupOf(clean, HelperRole in kernel.objects)
      ensures clean ==> (attempted ==> Swept())
      ensures !clean ==> !Swept() || (report.Some? && ErrorOf(channel.frames).Some? && !ErrorOf(channel.frames).value.1)
      ensures HelperRole in kernel.objects <==>
                Attempts(old(registry.State())) && kernel.Registers(old(kernel.tick), HelperRole in old(kernel.escrow))
      ensures result.verdict == Completed ==>
                && Hear(inv, channel.frames).Ok? && Hear(inv, channel.frames).value.complete
                && result.out == Hear(inv, channel.frames).value.out && result.err == Hear(inv, channel.frames).value.err
                && kernel.Gone(HelperRole) && kernel.Gone(ChildRole)
                && DescriptorsSettled() && !kernel.cleanupFailed
                && registry.State().active.None? && registry.State().circuit == old(registry.State().circuit)
      ensures result.verdict != Completed && Attempts(old(registry.State())) ==> registry.State().active.None? && registry.State().circuit
    {
      hide Hear, Kernel.ProcsOk, Kernel.FdsOk, Kernel.Gone, Kernel.Pinned, WellFormed, Publishable, DescriptorsSettled, EndsInTime,
        DispatchTrouble, Judged, ClockTrouble, Kernel.SecureTrouble, Kernel.Registers, Reserve, ErrorOf;
      ghost var slots, n, escrowed := registry.State(), kernel.tick, HelperRole in kernel.escrow;
      var hadProcess := Conduct();
      ghost var last := if kernel.tick > 0 then kernel.tick - 1 else 0;
      JudgedExact(slots, n, escrowed, channel.frames, report, last, channel.finishedAt);
      ClockExact(last);
      CompleteHasNoError(channel.frames);
      if verdict == Completed {
        CompletedIsPublishable();
      }
      FailuresPublishable();
      Publish(hadProcess);
      result := terminal.value;
    }

    lemma FailuresPublishable()
      ensures forall reason, cleanup :: Publishable(HelperResult(Failed(reason), cleanup, [], []))
    {
    }
  }

  lemma SameElsewhere(before: map<Role, Proc>, after: map<Role, Proc>, changed: Role, other: Role)
    requires before - {changed} == after - {changed} && other != changed
    ensures other in before <==> other in after
    ensures other in before ==> before[other] == after[other]
  {
    assert other in before <==> other in before - {changed};
    assert other in after <==> other in after - {changed};
  }
}