/**
The owned-process and descriptor kernel behind an H1 invocation, and the bounded cleanup
routine that drives it.

Nothing is assumed about the world outside: each call consults `env`, an arbitrary function
of the call's ordinal, which may make the call raise before or after its effect, answer its
switches either way, move the clock anywhere and swap the facts behind a descriptor.  A
theorem for all `env` is a theorem for every kernel behaviour, interruptions included.
*/
module HelperKernel {
  import opened Base
  import opened HelperProtocol

  datatype Time = Time(wall: nat, mono: nat)

  predicate NotBefore(a: Time, b: Time) { a.mono <= b.mono && a.wall <= b.wall }

  datatype Timing = Timing(command: nat, terminate: nat, drain: nat, reap: nat)

  /** What a call may raise: a contract violation, or an interrupt that must be re-raised later. */
  datatype Trouble = Violation(reason: Reason) | Interrupt

  function FiniteReason(t: Trouble): Reason {
    match t
    case Violation(reason) => reason
    case Interrupt => EvidenceInvalid
  }

  /** The first of two troubles, a refusal, and the answer of a step that may meet trouble. */
  function Then(a: Option<Trouble>, b: Option<Trouble>): Option<Trouble> { if a.Some? then a else b }

  function Unless(holds: bool, reason: Reason): Option<Trouble> { if holds then None else Some(Violation(reason)) }

  function Told(t: Option<Trouble>): Result<(), Trouble> { if t.Some? then Err(t.value) else Ok(()) }

  datatype Slot = Namespace | Executable | StdinNull | StdoutPipe | StderrPipe | Control | ParentWatch

  const SLOTS: seq<Slot> := [Namespace, Executable, StdinNull, StdoutPipe, StderrPipe, Control, ParentWatch]

  datatype Row = Row(slot: Slot, fd: nat)

  datatype Facts = Facts(device: nat, inode: nat, generation: nat, digest: nat)

  datatype Role = HelperRole | ChildRole

  datatype Proc = Proc(running: bool, reaped: bool, closed: bool)

  datatype Stream = OutStream | ErrStream

  datatype Poll = Poll(chunks: seq<(Stream, seq<Byte>)>, outEof: bool, errEof: bool, exit: Option<nat>, alive: bool)

  predicate ValidPoll(p: Poll) {
    && |p.chunks| <= 2
    && (forall c | c in p.chunks :: 0 < |c.1| <= CHUNK)
    && (p.exit.Some? ==> p.exit.value <= 255)
  }

  /** Everything the outside world decides about one call. */
  datatype Weather = Weather(
    early: Option<Trouble>, late: Option<Trouble>, yes: bool, also: bool,
    time: Time, drained: nat, poll: Poll, facts: map<nat, Facts>)

  datatype Operation = Clock | Running | Terminate | Kill | Drain | Reap | CloseOwned

  datatype Answer = Raised | Said(yes: bool) | Read(time: Time) | Drained(bytes: nat)

  /** Running account of the driver calls made since a cleanup began: how many calls, how many
      raised, how many reaps or closes answered no, how many drains were oversized, how many
      terminations, reaps and closes were attempted, the drained bytes kept, and every clock reading in order. */
  datatype Tally = Tally(calls: nat, raised: nat, refused: nat, oversized: nat,
                         asked: nat, reaps: nat, closes: nat, retained: nat, clocks: seq<Time>)

  const NO_CALLS := Tally(0, 0, 0, 0, 0, 0, 0, 0, [])

  function Record(t: Tally, op: Operation, answer: Answer): Tally {
    Tally(
      t.calls + 1,
      t.raised + (if answer == Raised then 1 else 0),
      t.refused + (if (op == Reap || op == CloseOwned) && answer == Said(false) then 1 else 0),
      t.oversized + (if answer.Drained? && CHUNK < answer.bytes then 1 else 0),
      t.asked + (if op == Terminate then 1 else 0),
      t.reaps + (if op == Reap then 1 else 0),
      t.closes + (if op == CloseOwned then 1 else 0),
      t.retained + (if answer.Drained? && answer.bytes <= CHUNK then answer.bytes else 0),
      if answer.Read? then t.clocks + [answer.time] else t.clocks)
  }

  datatype Attempt = Attempt(fd: nat, facts: Option<Facts>, closed: bool)

  function Fds(rows: seq<Row>): set<nat> { set r | r in rows :: r.fd }

  predicate DistinctFds(rows: seq<Row>) {
    forall i, j | 0 <= i < j < |rows| :: rows[i].fd != rows[j].fd
  }

  function Lookup<V>(m: map<nat, V>, k: nat): Option<V> { if k in m then Some(m[k]) else None }

  /** Descriptors successfully closed by a log of attempts, oldest first. */
  function ClosedBy(log: seq<Attempt>): seq<nat> {
    if log == [] then []
    else
      var a := log[|log| - 1];
      ClosedBy(log[..|log| - 1]) + (if a.closed then [a.fd] else [])
  }

  predicate Distinct(s: seq<nat>) { forall i, j | 0 <= i < j < |s| :: s[i] != s[j] }

  /** No descriptor is closed twice, `closed` holds the closed ones, and a refusal is latched. */
  ghost predicate Accounted(log: seq<Attempt>, closed: set<nat>, failed: bool) {
    && Distinct(ClosedBy(log)) && (forall fd :: fd in closed <==> fd in ClosedBy(log))
    && (!failed ==> forall a | a in log :: a.closed)
  }

  lemma AttemptIsAccounted(log: seq<Attempt>, closed: set<nat>, failed: bool, a: Attempt)
    requires Accounted(log, closed, failed) && a.fd !in closed
    ensures Accounted(log + [a], closed + (if a.closed then {a.fd} else {}), failed || !a.closed)
  {
    var longer := log + [a];
    assert longer[..|longer| - 1] == log;
    assert ClosedBy(longer) == ClosedBy(log) + (if a.closed then [a.fd] else []);
    assert forall b | b in longer :: b in log || b == a;
  }

  /** Effect and answer of one driver call on a live process object. */
  function Act(op: Operation, role: Role, p: Proc, w: Weather): (r: (Proc, bool))
    requires !p.closed
    ensures r.0.closed ==> op == CloseOwned && r.0.reaped
    ensures op == CloseOwned ==> r.1 == r.0.closed
    ensures op == Running ==> r.0 == p
  {
    match op
    case Running => (p, p.running)
    case Terminate => (p.(running := p.running && !w.yes), true)
    case Kill => (p.(running := false), true)
    case Reap =>
      var running := p.running && !(role == HelperRole && w.also);
      var reaped := w.yes && !running;
      (Proc(running, reaped, false), reaped)
    case CloseOwned =>
      var done := w.yes && p.reaped;
      (p.(closed := done), done)
    case _ => (p, true)
  }

  class Kernel {
    const env: nat -> Weather
    const catalog: seq<Row>            // the descriptors actually transferred
    var tick: nat
    var tally: Tally
    var polls: seq<Poll>               // every poll handed to the helper, in order
    var escrow: set<Role>
    var objects: map<Role, Proc>
    var pins: Option<map<nat, Option<Facts>>>
    var closed: set<nat>
    var attempts: seq<Attempt>
    var fdCleanupFailed: bool
    var cleanupFailed: bool

    constructor (env: nat -> Weather, catalog: seq<Row>)
      requires DistinctFds(catalog)
      ensures this.env == env && this.catalog == catalog && Valid()
      ensures objects == map[] && escrow == {} && pins == None && attempts == [] && polls == []
      ensures !fdCleanupFailed && !cleanupFailed
    {
      this.env, this.catalog := env, catalog;
      tick, tally, polls, escrow, objects := 0, NO_CALLS, [], {}, map[];
      pins, closed, attempts, fdCleanupFailed, cleanupFailed := None, {}, [], false, false;
    }

    ghost predicate ProcsOk()
      reads `escrow, `objects
    {
      forall role | role in objects :: role in escrow && (objects[role].closed ==> objects[role].reaped)
    }

    ghost predicate FdsOk()
      reads `pins, `closed, `attempts, `fdCleanupFailed
    {
      && DistinctFds(catalog)
      && (pins.Some? ==> pins.value.Keys == Fds(catalog))
      && closed <= Fds(catalog)
      && Accounted(attempts, closed, fdCleanupFailed)
    }

    ghost predicate Valid()
      reads `escrow, `objects, `pins, `closed, `attempts, `fdCleanupFailed
    {
      ProcsOk() && FdsOk()
    }

    /** Every close so far hit the object that was pinned when the transfer was claimed. */
    ghost predicate Pinned()
      reads `pins, `attempts
    {
      pins.Some? && forall a | a in attempts && a.closed :: a.fd in pins.value && a.facts == pins.value[a.fd]
    }

    predicate Gone(role: Role)
      reads `objects
    {
      role in objects && objects[role].closed && objects[role].reaped
    }

    method Next() returns (w: Weather)
      modifies this`tick
      ensures w == env(old(tick)) && tick == old(tick) + 1
    {
      w := env(tick);
      tick := tick + 1;
    }

    // ----- calls without an effect the model tracks -----

    /** What the clock says at a call, and what a check says. */
    function ClockAt(n: nat): Result<Time, Trouble> {
      if env(n).early.Some? then Err(env(n).early.value) else Ok(env(n).time)
    }

    function Asked(n: nat, reason: Reason): Option<Trouble> {
      Then(env(n).early, Unless(env(n).yes, reason))
    }

    function CheckAt(n: nat): Result<bool, Trouble> {
      if env(n).early.Some? then Err(env(n).early.value) else Ok(env(n).yes)
    }

    method ReadClock() returns (r: Result<Time, Trouble>)
      modifies this`tick, this`tally
      ensures tally == Record(old(tally), Clock, if r.Ok? then Read(r.value) else Raised)
      ensures r == ClockAt(old(tick)) && tick == old(tick) + 1
    {
      var w := Next();
      if w.early.Some? {
        tally := Record(tally, Clock, Raised);
        return Err(w.early.value);
      }
      tally := Record(tally, Clock, Read(w.time));
      return Ok(w.time);
    }

    /** Identity, executable, namespace, credential and descriptor checks: pass, fail or raise. */
    method Observe() returns (r: Result<bool, Trouble>)
      modifies this`tick
      ensures r == CheckAt(old(tick)) && tick == old(tick) + 1
    {
      var w := Next();
      r := if w.early.Some? then Err(w.early.value) else Ok(w.yes);
    }

    method PollChild() returns (r: Result<Poll, Trouble>)
      requires Valid()
      modifies this`tick, this`objects, this`polls
      ensures Valid() && objects.Keys == old(objects.Keys) && objects - {ChildRole} == old(objects) - {ChildRole}
      ensures tick == old(tick) + 1
      ensures r == if env(old(tick)).early.Some? then Err(env(old(tick)).early.value)
                   else if !old(ChildRole in objects && !objects[ChildRole].closed) then Err(Violation(IdentityMismatch))
                   else Ok(env(old(tick)).poll)
      ensures r.Ok? && r.value.exit.Some? ==> objects == old(objects)[ChildRole := old(objects)[ChildRole].(running := false)]
      ensures !(r.Ok? && r.value.exit.Some?) ==> objects == old(objects)
      ensures polls == old(polls) + (if r.Ok? then [r.value] else [])
    {
      var w := Next();
      if w.early.Some? {
        return Err(w.early.value);
      }
      if ChildRole !in objects || objects[ChildRole].closed {
        return Err(Violation(IdentityMismatch));
      }
      if w.poll.exit.Some? {
        objects := objects[ChildRole := objects[ChildRole].(running := false)];
      }
      polls := polls + [w.poll];
      return Ok(w.poll);
    }

    // ----- owned processes -----

    method PrepareOwned(role: Role) returns (r: Result<(), Trouble>)
      requires Valid()
      modifies this`tick, this`escrow
      ensures Valid() && tick == old(tick) + 1
      ensures r == Told(Then(env(old(tick)).early, Then(Unless(role !in old(escrow), Replay), env(old(tick)).late)))
      ensures escrow == if env(old(tick)).early.Some? then old(escrow) else old(escrow) + {role}
    {
      var w := Next();
      if w.early.Some? {
        return Err(w.early.value);
      }
      if role in escrow {
        return Err(Violation(Replay));
      }
      escrow := escrow + {role};
      if w.late.Some? {
        return Err(w.late.value);
      }
      return Ok(());
    }

    /** Registers the process object named by the escrow.  A late raise loses the return only. */
    method Reserve(role: Role) returns (r: Result<(), Trouble>)
      requires Valid()
      modifies this`tick, this`objects
      ensures Valid() && tick == old(tick) + 1
      ensures r == Told(Then(env(old(tick)).early, Then(Unless(role in escrow && role !in old(objects), Replay), env(old(tick)).late)))
      ensures objects == if env(old(tick)).early.None? && role in escrow && role !in old(objects)
                         then old(objects)[role := Proc(true, false, false)] else old(objects)
    {
      var w := Next();
      if w.early.Some? {
        return Err(w.early.value);
      }
      if role !in escrow || role in objects {
        return Err(Violation(Replay));
      }
      objects := objects[role := Proc(true, false, false)];
      if w.late.Some? {
        return Err(w.late.value);
      }
      return Ok(());
    }

    /** Is there still an owned object in this role?  Absent, or closed and reaped, means no. */
    method RecoverOwned(role: Role) returns (r: Result<bool, Trouble>)
      modifies this`tick
      ensures tick == old(tick) + 1
      ensures r == if env(old(tick)).early.Some? then Err(env(old(tick)).early.value) else Ok(role in objects && !Gone(role))
    {
      var w := Next();
      if w.early.Some? {
        return Err(w.early.value);
      }
      return Ok(role in objects && !Gone(role));
    }

    /** What stands in the way of securing a role from call `n` on, and whether its process gets registered. */
    function SecureTrouble(n: nat, escrowed: bool): Option<Trouble> {
      Then(env(n).early, Then(Unless(!escrowed, Replay), Then(env(n).late,
        Then(env(n + 1).early, Then(env(n + 1).late, env(n + 2).early)))))
    }

    predicate Registers(n: nat, escrowed: bool) {
      env(n).early.None? && !escrowed && env(n).late.None? && env(n + 1).early.None?
    }

    /** Escrow the role, register its process, and make sure the registration can be found again. */
    method Secure(role: Role) returns (r: Result<(), Trouble>)
      requires Valid()
      modifies this`tick, this`escrow, this`objects
      ensures Valid() && objects.Keys >= old(objects.Keys)
      ensures r == Told(SecureTrouble(old(tick), role in old(escrow))) && (r.Ok? ==> tick == old(tick) + 3)
      ensures objects == if Registers(old(tick), role in old(escrow)) then old(objects)[role := Proc(true, false, false)] else old(objects)
      ensures escrow == if env(old(tick)).early.Some? then old(escrow) else old(escrow) + {role}
    {
      hide FdsOk;
      assert role in objects ==> role in escrow;
      hide ProcsOk;
      r := PrepareOwned(role);
      if r.Err? { return; }
      r := Reserve(role);
      if r.Err? { return; }
      var owned := RecoverOwned(role);
      if owned.Err? {
        return Err(owned.error);
      }
      return if owned.value then Ok(()) else Err(Violation(IdentityMismatch));
    }

    /** The call finds its object and reaches it. */
    predicate Acts(role: Role, n: nat)
      reads `objects
    {
      env(n).early.None? && role in objects && !objects[role].closed
    }

    /** Shared shape of the per-process driver calls: find the object, act on it, answer. */
    method Drive(op: Operation, role: Role) returns (r: Result<bool, Trouble>)
      requires Valid()
      requires op in {Running, Terminate, Kill, Reap, CloseOwned}
      modifies this`tick, this`tally, this`objects
      ensures Valid() && objects.Keys == old(objects.Keys)
      ensures objects - {role} == old(objects) - {role}
      ensures tick == old(tick) + 1
      ensures tally == Record(old(tally), op, if r.Ok? then Said(r.value) else Raised)
      ensures old(Acts(role, tick)) ==>
                && objects == old(objects)[role := Act(op, role, old(objects)[role], env(old(tick))).0]
                && r == if env(old(tick)).late.Some? then Err(env(old(tick)).late.value)
                        else Ok(Act(op, role, old(objects)[role], env(old(tick))).1)
      ensures !old(Acts(role, tick)) ==> r.Err? && objects == old(objects)
      ensures op == Running ==> objects == old(objects)
      ensures op == CloseOwned && r.Ok? && r.value ==> Gone(role)
      ensures op != CloseOwned && r.Ok? ==> role in objects && !objects[role].closed
    {
      hide FdsOk;
      var w := Next();
      if w.early.Some? {
        tally := Record(tally, op, Raised);
        return Err(w.early.value);
      }
      if role !in objects || objects[role].closed {
        tally := Record(tally, op, Raised);
        return Err(Violation(IdentityMismatch));
      }
      var (after, answer) := Act(op, role, objects[role], w);
      objects := objects[role := after];
      if w.late.Some? {
        tally := Record(tally, op, Raised);
        return Err(w.late.value);
      }
      tally := Record(tally, op, Said(answer));
      return Ok(answer);
    }

    method DrainOwned(role: Role) returns (r: Result<nat, Trouble>)
      modifies this`tick, this`tally
      ensures tally == Record(old(tally), Drain, if r.Ok? then Drained(r.value) else Raised)
      ensures tick == old(tick) + 1 && (r.Ok? <==> Acts(role, old(tick))) && (r.Ok? ==> r.value == env(old(tick)).drained)
    {
      var w := Next();
      if w.early.Some? || role !in objects || objects[role].closed {
        tally := Record(tally, Drain, Raised);
        return Err(if w.early.Some? then w.early.value else Violation(IdentityMismatch));
      }
      tally := Record(tally, Drain, Drained(w.drained));
      return Ok(w.drained);
    }

    // ----- transferred descriptors -----

    /** The facts behind each transferred descriptor at call `n`. */
    function PinsAt(n: nat): map<nat, Option<Facts>> { map fd | fd in Fds(catalog) :: Lookup(env(n).facts, fd) }

    /** Claims the transfer once, pinning the facts seen behind each descriptor at that moment. */
    method TransferReceipt() returns (r: Result<seq<Row>, Trouble>)
      requires Valid()
      modifies this`tick, this`pins
      ensures Valid() && tick == old(tick) + 1
      ensures pins == if env(old(tick)).early.None? && old(pins).None? then Some(PinsAt(old(tick))) else old(pins)
      ensures match Then(env(old(tick)).early, env(old(tick)).late) case Some(t) => r == Err(t) case None => r == Ok(catalog)
      ensures r.Ok? ==> pins.Some?
    {
      var w := Next();
      if w.early.Some? {
        return Err(w.early.value);
      }
      if pins.None? {
        pins := Some(PinsAt(tick - 1));
      }
      if w.late.Some? {
        return Err(w.late.value);
      }
      return Ok(catalog);
    }

    /** The close of a descriptor at call `n` is answered and accepted under these pins. */
    predicate Closes(held: Option<map<nat, Option<Facts>>>, n: nat, fd: nat) {
      && env(n).early.None? && env(n).yes
      && (held.Some? ==> fd in held.value && Lookup(env(n).facts, fd) == held.value[fd])
    }

    /** Distinct transferred descriptors that are all still open. */
    predicate OpenHere(rows: seq<Row>)
      reads `closed
    {
      DistinctFds(rows) && Fds(rows) <= Fds(catalog) && Fds(rows) !! closed
    }

    method CloseTransferred(rows: seq<Row>) returns (r: Result<bool, Trouble>)
      requires Valid()
      modifies this`tick, this`closed, this`attempts, this`fdCleanupFailed
      ensures Valid() && closed >= old(closed) && (old(fdCleanupFailed) ==> fdCleanupFailed)
      ensures old(Pinned()) ==> Pinned()
      ensures r.Ok? && r.value ==> Fds(rows) <= closed && tick == old(tick) + |rows|
      ensures old(OpenHere(rows)) ==>
                (r == Ok(true) <==> forall i | 0 <= i < |rows| :: Closes(pins, old(tick) + i, rows[i].fd))
      ensures old(OpenHere(rows)) && (r == Ok(false) || (Fds(rows) <= closed && r != Ok(true))) ==> fdCleanupFailed
    {
      hide Accounted, ProcsOk, Pinned, Lookup;
      var safe, seen, i := true, {}, 0;
      while i < |rows|
        invariant 0 <= i <= |rows| && tick == old(tick) + i
        invariant Valid() && closed >= old(closed) && (old(fdCleanupFailed) ==> fdCleanupFailed)
        invariant old(Pinned()) ==> Pinned()
        invariant safe ==> Fds(rows[..i]) <= closed && seen <= closed
        invariant old(OpenHere(rows)) ==>
                    && seen == Fds(rows[..i]) && closed <= old(closed) + seen && (!safe ==> fdCleanupFailed)
                    && (safe <==> forall j | 0 <= j < i :: Closes(pins, old(tick) + j, rows[j].fd))
      {
        var w := Next();
        var fd := rows[i].fd;
        assert rows[..i + 1] == rows[..i] + [rows[i]];
        assert old(OpenHere(rows)) ==> fd in Fds(rows) && fd !in Fds(rows[..i]);
        if w.early.Some? {
          return Err(w.early.value);
        }
        if fd !in Fds(catalog) {
          return Err(Violation(FdTransferInvalid));
        }
        if fd !in seen && fd !in closed {
          seen := seen + {fd};
          var facts := Lookup(w.facts, fd);
          var good := w.yes && (pins.Some? ==> facts == pins.value[fd]);
          Attempted(Attempt(fd, facts, good));
          safe := safe && good;
        }
        i := i + 1;
      }
      assert rows[..i] == rows;
      return Ok(safe);
    }

    /** Records one close attempt; a refused one leaves the descriptor open and latches the failure. */
    method Attempted(a: Attempt)
      requires Valid() && a.fd in Fds(catalog) && a.fd !in closed
      requires a.closed && pins.Some? ==> a.facts == pins.value[a.fd]
      modifies this`closed, this`attempts, this`fdCleanupFailed
      ensures Valid() && attempts == old(attempts) + [a]
      ensures closed == old(closed) + (if a.closed then {a.fd} else {})
      ensures fdCleanupFailed == (old(fdCleanupFailed) || !a.closed)
      ensures old(Pinned()) ==> Pinned()
    {
      hide Accounted, ProcsOk;
      AttemptIsAccounted(attempts, closed, fdCleanupFailed, a);
      attempts := attempts + [a];
      if a.closed {
        closed := closed + {a.fd};
      } else {
        fdCleanupFailed := true;
        assert closed + {} == closed;
      }
    }

    method CloseControl() returns (r: Result<bool, Trouble>)
      requires Valid()
      modifies this`tick, this`closed, this`attempts, this`fdCleanupFailed
      ensures Valid() && closed >= old(closed) && (old(fdCleanupFailed) ==> fdCleanupFailed)
      ensures old(Pinned()) ==> Pinned()
      ensures r == Ok(true) ==> forall row | row in catalog && row.slot == Control :: row.fd in closed
      ensures r == Ok(false) ==> fdCleanupFailed
      ensures (forall row | row in catalog && row.slot == Control :: row.fd in closed) && r != Ok(true) ==> fdCleanupFailed
    {
      var rows := OpenRows(true);
      SelectCovers(catalog, closed, true);
      SelectIsOpen(catalog, closed, true);
      if rows == [] {
        return Ok(true);
      }
      assert rows[0] in rows;
      var w := Next();
      if w.early.Some? {
        return Err(w.early.value);
      }
      if !w.yes {
        fdCleanupFailed := true;
        return Ok(false);
      }
      r := CloseTransferred(rows);
    }

    /** Final sweep: true only when every transferred descriptor is closed and no close ever failed. */
    method CloseRemaining() returns (r: Result<bool, Trouble>)
      requires Valid()
      modifies this`tick, this`closed, this`attempts, this`fdCleanupFailed
      ensures Valid() && closed >= old(closed) && (old(fdCleanupFailed) ==> fdCleanupFailed)
      ensures old(Pinned()) ==> Pinned()
      ensures r == Ok(true) <==> closed == Fds(catalog) && !fdCleanupFailed
    {
      hide ProcsOk, Accounted, Pinned;
      SelectIsOpen(catalog, closed, false);
      assert forall row | row in catalog :: row.fd in Fds(catalog);
      var safe := CloseTransferred(OpenRows(false));
      if safe.Err? {
        return safe;
      }
      var control := CloseControl();
      if control.Err? {
        return control;
      }
      return Ok(safe.value && control.value && closed == Fds(catalog) && !fdCleanupFailed);
    }

    function OpenRows(control: bool): seq<Row>
      reads this
    {
      Select(catalog, closed, control)
    }
  }

  /** The still open rows, control or not, in transfer order. */
  function Select(rows: seq<Row>, closed: set<nat>, control: bool): seq<Row> {
    if rows == [] then []
    else
      var first := rows[0];
      (if first.fd !in closed && (first.slot == Control) == control then [first] else [])
      + Select(rows[1..], closed, control)
  }

  lemma {:induction false} SelectCovers(rows: seq<Row>, closed: set<nat>, control: bool)
    ensures forall row | row in rows && (row.slot == Control) == control :: row.fd in closed || row.fd in Fds(Select(rows, closed, control))
  {
    if rows != [] {
      SelectCovers(rows[1..], closed, control);
      var rest := Select(rows[1..], closed, control);
      assert forall fd | fd in Fds(rest) :: fd in Fds([rows[0]] + rest);
      assert rows[0] in [rows[0]] + rest;
      assert rows == [rows[0]] + rows[1..];
      assert [] + rest == rest;
    }
  }

  lemma {:induction false} SelectIsOpen(rows: seq<Row>, closed: set<nat>, control: bool)
    requires DistinctFds(rows)
    ensures var open := Select(rows, closed, control);
            && DistinctFds(open) && Fds(open) <= Fds(rows) && Fds(open) !! closed
            && forall row | row in open :: row in rows && (row.slot == Control) == control
  {
    if rows != [] {
      SelectIsOpen(rows[1..], closed, control);
      var rest := Select(rows[1..], closed, control);
      assert forall row | row in rest :: row.fd != rows[0].fd;
      assert forall row | row in rows[1..] :: row in rows;
      assert rows[0] in rows;
    }
  }
}
