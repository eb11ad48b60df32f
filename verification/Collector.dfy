/**
The mock capture collector: a runner that checks an event script as it goes, and a manifest that
re-checks the whole batch of artifacts afterwards.
*/
module Collector {
  import opened Base

  const MAX_AGGREGATE := 16 * 1048576
  const MAX_WINDOW := 2000000
  const CHUNK := 16384
  const MAX_COMMANDS := 256

  datatype Time = Time(wall: nat, mono: nat)

  predicate NotBefore(a: Time, b: Time) { a.mono <= b.mono && a.wall <= b.wall }

  datatype Reader = Reader(id: nat, namespaces: set<nat>, lost: bool)

  datatype Binary = Binary(path: nat, build: nat)

  /** One entry of the fixed command registry. */
  datatype Operation = Operation(binary: nat, argv: nat, outCap: nat, errCap: nat, duration: nat)

  datatype Request = Request(uuid: nat, namespace: nat, source: nat)

  datatype Kind =
    | Stdout | Stderr | StdoutEof | StderrEof | Exit | Complete
    | Truncated | TimedOut | Interrupted | Died

  datatype Event = Event(kind: Kind, at: Time, reader: Reader, data: seq<Byte>, status: nat)

  datatype Script = Script(request: Request, binary: Binary, argv: nat, before: Reader, started: Time, events: seq<Event>)

  datatype Plan = Plan(digest: nat, reader: Reader, requests: seq<Request>, operation: nat -> Operation, binaryAt: nat -> Binary)

  ghost predicate PlanOk(p: Plan) {
    && !p.reader.lost && 1 <= |p.requests| <= MAX_COMMANDS
    && (forall i | 0 <= i < |p.requests| :: p.requests[i].namespace in p.reader.namespaces)
    && (forall path :: p.binaryAt(path).path == path)
  }

  datatype Session = Session(uuid: nat, plan: nat, reader: Reader, started: Time, deadline: nat)

  datatype Receipt = Receipt(session: nat, request: Request, ordinal: nat, outSha: nat, errSha: nat)

  datatype Artifact = Artifact(session: Session, request: Request, binary: Binary, started: Time, finished: Time,
                               out: seq<Byte>, err: seq<Byte>, receipt: Receipt)

  datatype Reason =
    | Replay | StreamInvalid | MissingSource | SourceSubstitution | NamespaceLost | IdentityChanged
    | BinaryMismatch | ClockRollback | TimingUnproven | Timeout | StdoutLimit | StderrLimit
    | AggregateLimit | TransportIncomplete | NonzeroExit | Failed(kind: Kind)
    | EvidenceInvalid | Disabled | Killed

  // ----- what a batch must look like, checked after the fact -----

  /** The artifact record's own checks. */
  predicate ArtifactOk(a: Artifact, plan: Plan, sha: seq<Byte> -> nat) {
    var op, s := plan.operation(a.request.source), a.session;
    && a.binary.path == op.binary && |a.out| <= op.outCap && |a.err| <= op.errCap
    && a.request.namespace in s.reader.namespaces
    && s.started.mono <= a.started.mono <= a.finished.mono <= s.deadline
    && a.finished.mono - a.started.mono <= op.duration
    && s.started.wall <= a.started.wall <= a.finished.wall
    && a.finished.wall - s.started.wall <= MAX_WINDOW && a.finished.wall - a.started.wall <= op.duration
    && a.receipt.session == s.uuid && a.receipt.request == a.request
    && a.receipt.outSha == sha(a.out) && a.receipt.errSha == sha(a.err)
  }

  function Bytes(artifacts: seq<Artifact>): nat {
    if artifacts == [] then 0
    else Bytes(artifacts[..|artifacts| - 1]) + |artifacts[|artifacts| - 1].out| + |artifacts[|artifacts| - 1].err|
  }

  function Previous(s: Session, artifacts: seq<Artifact>, i: nat): Time
    requires i <= |artifacts|
  {
    if i == 0 then s.started else artifacts[i - 1].finished
  }

  /** Position `i` of a batch: the right request, session, ordinal and binary, not before its predecessor. */
  predicate PlaceOk(plan: Plan, s: Session, artifacts: seq<Artifact>, i: nat)
    requires i < |artifacts|
  {
    var a := artifacts[i];
    && a.session == s && a.receipt.ordinal == i
    && i < |plan.requests| && a.request == plan.requests[i]
    && a.binary == plan.binaryAt(plan.operation(a.request.source).binary)
    && NotBefore(Previous(s, artifacts, i), a.started)
  }

  predicate BatchOk(plan: Plan, s: Session, artifacts: seq<Artifact>, sha: seq<Byte> -> nat) {
    && s.plan == plan.digest && s.reader == plan.reader
    && (forall i | 0 <= i < |artifacts| :: ArtifactOk(artifacts[i], plan, sha) && PlaceOk(plan, s, artifacts, i))
    && Bytes(artifacts) <= MAX_AGGREGATE
  }

  predicate ManifestOk(plan: Plan, s: Session, artifacts: seq<Artifact>, sha: seq<Byte> -> nat) {
    |artifacts| == |plan.requests| && BatchOk(plan, s, artifacts, sha)
  }

  lemma {:induction false} BytesGrow(artifacts: seq<Artifact>, n: nat)
    requires n <= |artifacts|
    ensures Bytes(artifacts[..n]) <= Bytes(artifacts)
    decreases |artifacts|
  {
    if n < |artifacts| {
      var front := artifacts[..|artifacts| - 1];
      assert front[..n] == artifacts[..n];
      BytesGrow(front, n);
    } else {
      assert artifacts[..n] == artifacts;
    }
  }

  lemma PlaceMeans(plan: Plan, s: Session, artifacts: seq<Artifact>, i: nat)
    requires i < |artifacts| == |plan.requests|
    ensures var a := artifacts[i];
            PlaceOk(plan, s, artifacts, i) <==>
            && a.request == plan.requests[i] && a.session == s && a.receipt.ordinal == i
            && a.binary == plan.binaryAt(plan.operation(a.request.source).binary)
            && NotBefore(Previous(s, artifacts, i), a.started)
  {
  }

  /** The manifest constructor: one pass with a running total and the previous finish time. */
  method CheckManifest(plan: Plan, s: Session, artifacts: seq<Artifact>, sha: seq<Byte> -> nat) returns (ok: bool)
    ensures ok <==> ManifestOk(plan, s, artifacts, sha)
  {
    hide ArtifactOk, PlaceOk;
    if s.plan != plan.digest || s.reader != plan.reader || |artifacts| != |plan.requests| {
      return false;
    }
    var total, previous, i := 0, s.started, 0;
    while i < |artifacts|
      invariant 0 <= i <= |artifacts| && total == Bytes(artifacts[..i]) && total <= MAX_AGGREGATE
      invariant previous == Previous(s, artifacts, i)
      invariant forall k | 0 <= k < i :: ArtifactOk(artifacts[k], plan, sha) && PlaceOk(plan, s, artifacts, k)
    {
      var a := artifacts[i];
      PlaceMeans(plan, s, artifacts, i);
      if !ArtifactOk(a, plan, sha) || a.request != plan.requests[i] || a.session != s || a.receipt.ordinal != i
         || a.binary != plan.binaryAt(plan.operation(a.request.source).binary) || !NotBefore(previous, a.started) {
        return false;
      }
      previous := a.finished;
      total := total + |a.out| + |a.err|;
      assert artifacts[..i + 1][..i] == artifacts[..i];
      if total > MAX_AGGREGATE {
        BytesGrow(artifacts, i + 1);
        return false;
      }
      i := i + 1;
    }
    assert artifacts[..i] == artifacts;
    return true;
  }

  // ----- one command, from its script -----

  /** What the event loop has taken in. */
  datatype Intake = Intake(out: seq<Byte>, err: seq<Byte>, outEof: bool, errEof: bool, exited: bool, completed: bool)

  const NOTHING := Intake([], [], false, false, false, false)

  /** One event on top of what was taken in; `room` is what the aggregate cap still allows. */
  function Absorb(op: Operation, x: Intake, e: Event, room: int): Result<Intake, Reason> {
    if x.completed then Err(StreamInvalid)
    else
      match e.kind
      case Stdout =>
        if x.outEof || x.exited || |e.data| > CHUNK then Err(StreamInvalid)
        else if |x.out| + |e.data| > op.outCap then Err(StdoutLimit)
        else if |e.data| > room then Err(AggregateLimit)
        else Ok(x.(out := x.out + e.data))
      case Stderr =>
        if x.errEof || x.exited || |e.data| > CHUNK then Err(StreamInvalid)
        else if |x.err| + |e.data| > op.errCap then Err(StderrLimit)
        else if |e.data| > room then Err(AggregateLimit)
        else Ok(x.(err := x.err + e.data))
      case StdoutEof => if x.outEof || x.exited then Err(StreamInvalid) else Ok(x.(outEof := true))
      case StderrEof => if x.errEof || x.exited then Err(StreamInvalid) else Ok(x.(errEof := true))
      case Exit =>
        if x.exited || !x.outEof || !x.errEof then Err(TransportIncomplete)
        else if e.status != 0 then Err(NonzeroExit)
        else Ok(x.(exited := true))
      case Complete =>
        if !(x.exited && x.outEof && x.errEof) then Err(TransportIncomplete) else Ok(x.(completed := true))
      case Truncated => Err(TransportIncomplete)
      case _ => Err(Failed(e.kind))
  }

  /** The bytes of one stream in an event list, in order. */
  function Data(events: seq<Event>, kind: Kind): seq<Byte> {
    if events == [] then []
    else
      var e := events[|events| - 1];
      Data(events[..|events| - 1], kind) + (if e.kind == kind then e.data else [])
  }

  function IdentityOf(s: Session, reader: Reader): Result<(), Reason> {
    if reader.lost then Err(NamespaceLost) else if reader != s.reader then Err(IdentityChanged) else Ok(())
  }

  /** A reading of both clocks: in order, inside the session and inside the operation. */
  function ClockOf(s: Session, duration: nat, started: Time, last: Time, at: Time): Result<(), Reason> {
    if !NotBefore(last, at) then Err(ClockRollback)
    else if !(at.mono <= s.deadline && at.wall <= s.started.wall + MAX_WINDOW) then Err(TimingUnproven)
    else if !(at.mono <= started.mono + duration && at.wall <= started.wall + duration) then Err(Timeout)
    else Ok(())
  }

  datatype Flow = Flow(taken: Intake, last: Time)

  function OneEvent(op: Operation, s: Session, started: Time, room: nat, f: Flow, e: Event): Result<Flow, Reason> {
    if f.taken.completed then Err(StreamInvalid)
    else
      match IdentityOf(s, e.reader)
      case Err(reason) => Err(reason)
      case Ok(_) =>
        match ClockOf(s, op.duration, started, f.last, e.at)
        case Err(reason) => Err(reason)
        case Ok(_) =>
          match Absorb(op, f.taken, e, room - |f.taken.out| - |f.taken.err|)
          case Err(reason) => Err(reason)
          case Ok(next) => Ok(Flow(next, e.at))
  }

  /** The events of a script, one after another; the first refusal ends it. */
  function Flowed(op: Operation, s: Session, started: Time, room: nat, from: Time, events: seq<Event>): Result<Flow, Reason> {
    if events == [] then Ok(Flow(NOTHING, from))
    else
      match Flowed(op, s, started, room, from, events[..|events| - 1])
      case Err(reason) => Err(reason)
      case Ok(f) => OneEvent(op, s, started, room, f, events[|events| - 1])
  }

  lemma {:induction false} FlowStops(op: Operation, s: Session, started: Time, room: nat, from: Time, events: seq<Event>, i: nat)
    requires i <= |events| && Flowed(op, s, started, room, from, events[..i]).Err?
    ensures Flowed(op, s, started, room, from, events) == Flowed(op, s, started, room, from, events[..i])
    decreases |events|
  {
    hide OneEvent;
    if i < |events| {
      var front := events[..|events| - 1];
      assert front[..i] == events[..i];
      FlowStops(op, s, started, room, from, front, i);
    } else {
      assert events[..i] == events;
    }
  }

  lemma NothingTaken(op: Operation, s: Session, started: Time, room: nat, from: Time, events: seq<Event>)
    ensures Flowed(op, s, started, room, from, events[..0]) == Ok(Flow(NOTHING, from))
  {
  }

  /** What the next event does to the flow of the whole script. */
  lemma FlowDecides(op: Operation, s: Session, started: Time, room: nat, from: Time, events: seq<Event>, i: nat)
    requires i < |events| && Flowed(op, s, started, room, from, events[..i]).Ok?
    ensures var next := OneEvent(op, s, started, room, Flowed(op, s, started, room, from, events[..i]).value, events[i]);
            && Flowed(op, s, started, room, from, events[..i + 1]) == next
            && (next.Err? ==> Flowed(op, s, started, room, from, events) == next)
  {
    hide OneEvent;
    assert events[..i + 1][..i] == events[..i] && events[..i + 1][i] == events[i];
    if Flowed(op, s, started, room, from, events[..i + 1]).Err? {
      FlowStops(op, s, started, room, from, events, i + 1);
    }
  }

  // ----- what a complete stream looks like -----

  predicate Seen(events: seq<Event>, kind: Kind) { exists e | e in events :: e.kind == kind }

  /** What may follow the events before it: data only before the end of its stream and the exit, one end for each
      stream, one exit with status 0 after both ends, one completion after that, and then nothing. */
  predicate Allowed(before: seq<Event>, e: Event) {
    && !Seen(before, Complete)
    && match e.kind
       case Stdout => !Seen(before, StdoutEof) && !Seen(before, Exit) && |e.data| <= CHUNK
       case Stderr => !Seen(before, StderrEof) && !Seen(before, Exit) && |e.data| <= CHUNK
       case StdoutEof => !Seen(before, StdoutEof) && !Seen(before, Exit)
       case StderrEof => !Seen(before, StderrEof) && !Seen(before, Exit)
       case Exit => !Seen(before, Exit) && Seen(before, StdoutEof) && Seen(before, StderrEof) && e.status == 0
       case Complete => Seen(before, Exit)
       case _ => false
  }

  predicate Orderly(events: seq<Event>) { forall i | 0 <= i < |events| :: Allowed(events[..i], events[i]) }

  /** Every event comes from the session's reader, at a time not before the one before it, inside the session and
      inside the operation. */
  predicate Timely(op: Operation, s: Session, started: Time, from: Time, events: seq<Event>) {
    forall i | 0 <= i < |events| :: TimelyAt(op, s, started, from, events, i)
  }

  predicate TimelyAt(op: Operation, s: Session, started: Time, from: Time, events: seq<Event>, i: nat)
    requires i < |events|
  {
    && IdentityOf(s, events[i].reader).Ok?
    && ClockOf(s, op.duration, started, if i == 0 then from else events[i - 1].at, events[i].at).Ok?
  }

  predicate Bounded(op: Operation, room: nat, events: seq<Event>) {
    && |Data(events, Stdout)| <= op.outCap && |Data(events, Stderr)| <= op.errCap
    && |Data(events, Stdout)| + |Data(events, Stderr)| <= room
  }

  /** What was taken in, read off the events. */
  function TakenOf(events: seq<Event>): Intake {
    Intake(Data(events, Stdout), Data(events, Stderr), Seen(events, StdoutEof), Seen(events, StderrEof), Seen(events, Exit),
           Seen(events, Complete))
  }

  lemma SeenGrows(before: seq<Event>, e: Event)
    ensures forall kind :: Seen(before + [e], kind) <==> Seen(before, kind) || e.kind == kind
    ensures forall kind :: Data(before + [e], kind) == Data(before, kind) + (if e.kind == kind then e.data else [])
  {
    assert (before + [e])[..|before|] == before;
    assert e in before + [e] && forall x :: x in before + [e] <==> x in before || x == e;
  }

  lemma OrderlyGrows(before: seq<Event>, e: Event)
    ensures Orderly(before + [e]) <==> Orderly(before) && Allowed(before, e)
  {
    hide Allowed;
    var longer := before + [e];
    assert longer[..|before|] == before && longer[|before|] == e;
    assert forall i | 0 <= i < |before| :: longer[..i] == before[..i] && longer[i] == before[i];
  }

  lemma TimelyGrows(op: Operation, s: Session, started: Time, from: Time, before: seq<Event>, e: Event)
    ensures var last := if before == [] then from else before[|before| - 1].at;
            Timely(op, s, started, from, before + [e]) <==>
            && Timely(op, s, started, from, before)
            && IdentityOf(s, e.reader).Ok? && ClockOf(s, op.duration, started, last, e.at).Ok?
  {
    hide IdentityOf, ClockOf;
    var longer := before + [e];
    assert longer[|before|] == e && (before != [] ==> longer[|before| - 1] == before[|before| - 1]);
    forall i | 0 <= i < |before|
      ensures TimelyAt(op, s, started, from, longer, i) == TimelyAt(op, s, started, from, before, i)
    {
      assert longer[i] == before[i] && (i > 0 ==> longer[i - 1] == before[i - 1]);
    }
    if Timely(op, s, started, from, longer) {
      assert TimelyAt(op, s, started, from, longer, |before|);
    }
  }

  /** What every accepted prefix has in common: an exit needs both ends of file and a completion an exit. */
  lemma {:induction false} OrderlySeen(events: seq<Event>)
    requires Orderly(events)
    ensures Seen(events, Exit) ==> Seen(events, StdoutEof) && Seen(events, StderrEof)
    ensures Seen(events, Complete) ==> Seen(events, Exit)
    ensures forall e | e in events && e.kind == Exit :: e.status == 0
  {
    if events != [] {
      var front, e := events[..|events| - 1], events[|events| - 1];
      assert events == front + [e];
      OrderlyGrows(front, e);
      SeenGrows(front, e);
      OrderlySeen(front);
    }
  }

  lemma AbsorbExact(op: Operation, room: nat, before: seq<Event>, e: Event)
    requires Orderly(before) && Bounded(op, room, before)
    ensures var x, longer := TakenOf(before), before + [e];
            var r := Absorb(op, x, e, room - |x.out| - |x.err|);
            && (r.Ok? ==> r.value == TakenOf(longer))
            && (r.Ok? ==> Allowed(before, e) && Bounded(op, room, longer))
            && (Allowed(before, e) && Bounded(op, room, longer) ==> r.Ok?)
  {
    hide Data, Seen, Orderly;
    SeenGrows(before, e);
    OrderlySeen(before);
  }

  lemma BoundedShrinks(op: Operation, room: nat, before: seq<Event>, e: Event)
    requires Bounded(op, room, before + [e])
    ensures Bounded(op, room, before)
  {
    hide Data;
    SeenGrows(before, e);
  }

  /** The event loop accepts exactly the streams in which every event is timely, from the right reader and allowed
      by those before it, within the caps; and what it has then taken in can be read off the events. */
  lemma {:induction false} FlowExact(op: Operation, s: Session, started: Time, room: nat, from: Time, events: seq<Event>)
    ensures Flowed(op, s, started, room, from, events).Ok? <==>
            Orderly(events) && Timely(op, s, started, from, events) && Bounded(op, room, events)
    ensures Flowed(op, s, started, room, from, events).Ok? ==>
              Flowed(op, s, started, room, from, events).value
                == Flow(TakenOf(events), if events == [] then from else events[|events| - 1].at)
  {
    hide Orderly, Timely, Bounded, IdentityOf, ClockOf, Allowed, Absorb, Seen, Data;
    if events == [] {
      NothingFlows(op, s, started, room, from);
    } else {
      var front, e := events[..|events| - 1], events[|events| - 1];
      assert events == front + [e];
      FlowExact(op, s, started, room, from, front);
      OrderlyGrows(front, e);
      TimelyGrows(op, s, started, from, front, e);
      if Bounded(op, room, events) {
        BoundedShrinks(op, room, front, e);
      }
      if Orderly(front) && Bounded(op, room, front) {
        AbsorbExact(op, room, front, e);
        CompletedRefused(front, e);
      }
    }
  }

  lemma CompletedRefused(before: seq<Event>, e: Event)
    ensures Seen(before, Complete) ==> !Allowed(before, e)
  {
  }

  lemma NothingFlows(op: Operation, s: Session, started: Time, room: nat, from: Time)
    ensures Orderly([]) && Timely(op, s, started, from, []) && Bounded(op, room, []) && TakenOf([]) == NOTHING
  {
  }

  /** A whole script of one request of the plan. */
  predicate Whole(plan: Plan, s: Session, last: Time, room: nat, script: Script) {
    var op := plan.operation(script.request.source);
    && IdentityOf(s, script.before).Ok? && script.argv == op.argv && script.binary == plan.binaryAt(op.binary)
    && ClockOf(s, op.duration, script.started, last, script.started).Ok?
    && Orderly(script.events) && Timely(op, s, script.started, script.started, script.events)
    && Bounded(op, room, script.events) && Seen(script.events, Complete)
  }

  /** The artifact tells one script of its request: the operation's own argv and binary, a complete stream with both
      ends and exit status 0, and both outputs in the order of its events. */
  ghost predicate Told(plan: Plan, scripts: seq<Script>, a: Artifact) {
    exists script | script in scripts :: Tells(plan, script, a)
  }

  predicate Tells(plan: Plan, script: Script, a: Artifact) {
    var op := plan.operation(a.request.source);
    && script.request == a.request && script.argv == op.argv && script.binary == a.binary == plan.binaryAt(op.binary)
    && script.started == a.started && Orderly(script.events) && Seen(script.events, Complete)
    && Seen(script.events, StdoutEof) && Seen(script.events, StderrEof) && Seen(script.events, Exit)
    && (forall e | e in script.events && e.kind == Exit :: e.status == 0)
    && a.out == Data(script.events, Stdout) && a.err == Data(script.events, Stderr)
  }

  // ----- a whole plan, from its scripts -----

  /** What a runner has done so far. */
  datatype Books = Books(issued: seq<Artifact>, last: Time, total: nat)

  function Room(total: nat): nat { if total <= MAX_AGGREGATE then MAX_AGGREGATE - total else 0 }

  /** The first script made for a request. */
  function Find(scripts: seq<Script>, request: Request): Option<Script> {
    if scripts == [] then None else if scripts[0].request == request then Some(scripts[0]) else Find(scripts[1..], request)
  }

  function Uuids(requests: seq<Request>): set<nat> { set r | r in requests :: r.uuid }

  /** One script on top of the books; refused for the first thing that is wrong with it. */
  function RunScript(plan: Plan, s: Session, sha: seq<Byte> -> nat, b: Books, script: Script): Result<Books, Reason> {
    var op := plan.operation(script.request.source);
    if IdentityOf(s, script.before).Err? then Err(IdentityOf(s, script.before).error)
    else if script.argv != op.argv || script.binary != plan.binaryAt(op.binary) then Err(BinaryMismatch)
    else if ClockOf(s, op.duration, script.started, b.last, script.started).Err?
    then Err(ClockOf(s, op.duration, script.started, b.last, script.started).error)
    else
      match Flowed(op, s, script.started, Room(b.total), script.started, script.events)
      case Err(reason) => Err(reason)
      case Ok(f) =>
        if !f.taken.completed then Err(TransportIncomplete)
        else Ok(Books(b.issued + [ArtifactOf(s, sha, script, |b.issued|, f)], f.last, b.total + |f.taken.out| + |f.taken.err|))
  }

  function RunOne(plan: Plan, s: Session, scripts: seq<Script>, sha: seq<Byte> -> nat, b: Books, used: set<nat>, request: Request)
    : Result<Books, Reason>
  {
    match Find(scripts, request)
    case None => Err(MissingSource)
    case Some(script) => if request.uuid in used then Err(SourceSubstitution) else RunScript(plan, s, sha, b, script)
  }

  function ArtifactOf(s: Session, sha: seq<Byte> -> nat, script: Script, ordinal: nat, f: Flow): Artifact {
    var receipt := Receipt(s.uuid, script.request, ordinal, sha(f.taken.out), sha(f.taken.err));
    Artifact(s, script.request, script.binary, script.started, f.last, f.taken.out, f.taken.err, receipt)
  }

  /** The first `i` commands of the plan. */
  function RunAll(plan: Plan, s: Session, scripts: seq<Script>, sha: seq<Byte> -> nat, i: nat): Result<Books, Reason>
    requires i <= |plan.requests|
  {
    if i == 0 then Ok(Books([], s.started, 0))
    else
      match RunAll(plan, s, scripts, sha, i - 1)
      case Err(reason) => Err(reason)
      case Ok(b) => RunOne(plan, s, scripts, sha, b, Uuids(plan.requests[..i - 1]), plan.requests[i - 1])
  }

  lemma {:induction false} RunStops(plan: Plan, s: Session, scripts: seq<Script>, sha: seq<Byte> -> nat, i: nat, k: nat)
    requires i <= k <= |plan.requests| && RunAll(plan, s, scripts, sha, i).Err?
    ensures RunAll(plan, s, scripts, sha, k) == RunAll(plan, s, scripts, sha, i)
    decreases k
  {
    hide RunOne;
    if i < k {
      RunStops(plan, s, scripts, sha, i, k - 1);
    }
  }

  lemma {:induction false} FindMeans(scripts: seq<Script>, request: Request)
    ensures var r := Find(scripts, request);
            && (r.Some? ==> r.value in scripts && r.value.request == request)
            && (r.None? ==> forall script | script in scripts :: script.request != request)
  {
    if scripts != [] {
      FindMeans(scripts[1..], request);
      assert scripts == [scripts[0]] + scripts[1..];
    }
  }

  /** What an opened script decides. */
  lemma RunOneTells(plan: Plan, s: Session, scripts: seq<Script>, sha: seq<Byte> -> nat, b: Books, used: set<nat>, request: Request)
    requires b.total <= MAX_AGGREGATE
    ensures var r := RunOne(plan, s, scripts, sha, b, used, request);
            match Find(scripts, request)
            case None => r == Err(MissingSource)
            case Some(script) =>
              if request.uuid in used then r == Err(SourceSubstitution)
              else
                && r == RunScript(plan, s, sha, b, script) && script.request == request
                && (r.Ok? ==> |r.value.issued| == |b.issued| + 1 && r.value.issued[|b.issued|].request == request
                              && Told(plan, scripts, r.value.issued[|b.issued|]))
  {
    hide RunScript, Told, Whole;
    FindMeans(scripts, request);
    RunOneExact(plan, s, scripts, sha, b, used, request);
  }

  /** One command returns exactly when it has a script of its own, not used before, that is whole; and what it
      issues tells that script. */
  lemma RunOneExact(plan: Plan, s: Session, scripts: seq<Script>, sha: seq<Byte> -> nat, b: Books, used: set<nat>, request: Request)
    requires b.total <= MAX_AGGREGATE
    ensures var r, found := RunOne(plan, s, scripts, sha, b, used, request), Find(scripts, request);
            && (r.Ok? <==> found.Some? && request.uuid !in used && Whole(plan, s, b.last, MAX_AGGREGATE - b.total, found.value))
            && (r.Ok? ==> |r.value.issued| == |b.issued| + 1 && r.value.issued[..|b.issued|] == b.issued
                          && r.value.issued[|b.issued|].request == request && Told(plan, scripts, r.value.issued[|b.issued|])
                          && r.value.total <= MAX_AGGREGATE)
  {
    hide Orderly, Timely, Flowed, IdentityOf, ClockOf, Data, Seen, Find;
    FindMeans(scripts, request);
    var found := Find(scripts, request);
    if found.Some? {
      var script, op := found.value, plan.operation(request.source);
      FlowExact(op, s, script.started, MAX_AGGREGATE - b.total, script.started, script.events);
      if Orderly(script.events) {
        OrderlySeen(script.events);
      }
      var r := RunOne(plan, s, scripts, sha, b, used, request);
      if r.Ok? {
        assert Tells(plan, script, r.value.issued[|b.issued|]);
      }
    }
  }

  // ----- transport -----

  class Transport {
    const scripts: seq<Script>
    const cut: nat -> bool             // does a kill close the transport just before its n-th use?
    var uses: nat
    var used: set<nat>
    var active: Option<Script>
    var index: nat
    var closed: bool

    constructor (scripts: seq<Script>, cut: nat -> bool)
      ensures this.scripts == scripts && this.cut == cut && active.None? && !closed && used == {}
    {
      this.scripts, this.cut := scripts, cut;
      uses, used, active, index, closed := 0, {}, None, 0, false;
    }

    /** Another thread's kill may land here. */
    method Yield()
      modifies this`uses, this`active, this`closed
      ensures (old(closed) ==> closed)
      ensures (closed && active.None?) || (closed == old(closed) && active == old(active))
    {
      if cut(uses) {
        Close();
      }
      uses := uses + 1;
    }

    method Open(request: Request) returns (r: Result<Script, Reason>)
      modifies this
      ensures old(closed) ==> closed
      ensures r.Ok? ==> !closed && r.value in scripts && r.value.request == request && active == Some(r.value) && index == 0
                        && request.uuid !in old(used) && used == old(used) + {request.uuid}
      ensures r.Err? ==> (active == old(active) || closed) && used == old(used)
      ensures !closed && old(active).None? ==>
                match Find(scripts, request)
                case None => r == Err(MissingSource)
                case Some(script) => r == if request.uuid in old(used) then Err(SourceSubstitution) else Ok(script)
    {
      FindMeans(scripts, request);
      Yield();
      if closed || active.Some? {
        return Err(StreamInvalid);
      }
      var i := 0;
      while i < |scripts| && scripts[i].request != request
        invariant 0 <= i <= |scripts| && Find(scripts, request) == Find(scripts[i..], request)
      {
        i := i + 1;
      }
      if i == |scripts| {
        return Err(MissingSource);
      }
      if request.uuid in used {
        return Err(SourceSubstitution);
      }
      used, active, index := used + {request.uuid}, Some(scripts[i]), 0;
      return Ok(scripts[i]);
    }

    /** The next event of the active script; nothing at its end. */
    method Pull() returns (r: Result<Option<Event>, Reason>)
      modifies this`index, this`uses, this`active, this`closed
      ensures old(closed) ==> closed
      ensures active == old(active) || (closed && active.None?)
      ensures r.Err? <==> active.None? || closed
      ensures r.Ok? ==> r.value == if old(index) < |active.value.events| then Some(active.value.events[old(index)]) else None
      ensures index == if r.Ok? && r.value.Some? then old(index) + 1 else old(index)
    {
      Yield();
      if active.None? || closed {
        return Err(StreamInvalid);
      }
      if index >= |active.value.events| {
        return Ok(None);
      }
      index := index + 1;
      return Ok(Some(active.value.events[index - 1]));
    }

    /** The script may be put back only when it was read to its end. */
    method Release() returns (ok: bool)
      modifies this`active, this`uses, this`closed
      ensures old(closed) ==> closed
      ensures ok ==> old(active).Some? && index == |old(active).value.events| && active.None?
      ensures !closed ==> (ok <==> old(active).Some? && index == |old(active).value.events|)
      ensures !ok ==> closed || (active == old(active) && (active.None? || index != |active.value.events|))
    {
      Yield();
      if active.None? || index != |active.value.events| {
        return false;
      }
      active := None;
      return true;
    }

    method Close()
      modifies this`active, this`closed
      ensures active.None? && closed
    {
      active, closed := None, true;
    }
  }

  // ----- runner -----

  class Runner {
    const plan: Plan
    const sha: seq<Byte> -> nat
    const transport: Transport
    var session: Option<Session>
    var issued: seq<Artifact>
    var last: Time
    var total: nat

    constructor (plan: Plan, sha: seq<Byte> -> nat, transport: Transport)
      requires PlanOk(plan)
      ensures Valid() && session.None? && issued == [] && total == 0 && this.plan == plan && this.transport == transport
    {
      this.plan, this.sha, this.transport := plan, sha, transport;
      session, issued, last, total := None, [], Time(0, 0), 0;
    }

    /** What was issued so far passes the batch checks, and the clock stands after it. */
    ghost predicate Valid()
      reads `session, `issued, `last, `total
    {
      && PlanOk(plan) && total <= MAX_AGGREGATE && Bytes(issued) <= total
      && (session.None? ==> issued == [])
      && (session.Some? ==>
            && BatchOk(plan, session.value, issued, sha) && |issued| <= |plan.requests|
            && session.value.deadline == session.value.started.mono + MAX_WINDOW
            && NotBefore(Previous(session.value, issued, |issued|), last)
            && NotBefore(session.value.started, last))
    }

    /** No bytes were taken in by a run that did not return. */
    predicate Exact()
      reads `issued, `total
    {
      total == Bytes(issued)
    }

    /** The collector's session: this plan, this reader, two seconds. */
    method Bind(uuid: nat, started: Time) returns (ok: bool)
      requires Valid()
      modifies this`session, this`last
      ensures Valid() && ok == old(session).None? && last == if ok then started else old(last)
      ensures session == if ok then Some(Session(uuid, plan.digest, plan.reader, started, started.mono + MAX_WINDOW)) else old(session)
    {
      if session.Some? {
        return false;
      }
      session, last := Some(Session(uuid, plan.digest, plan.reader, started, started.mono + MAX_WINDOW)), started;
      return true;
    }

    /** A reading of both clocks: in order, inside the session and inside the operation, whose duration
        comes from the active script. */
    method Clock(at: Time, started: Time, duration: nat) returns (r: Result<(), Reason>)
      requires session.Some?
      modifies this`last
      ensures r.Ok? <==>
                && NotBefore(old(last), at)
                && at.mono <= session.value.deadline && at.wall <= session.value.started.wall + MAX_WINDOW
                && at.mono <= started.mono + duration && at.wall <= started.wall + duration
                && transport.active.Some?
      ensures transport.active.Some? ==> r == ClockOf(session.value, duration, started, old(last), at)
      ensures last == if r.Ok? then at else old(last)
    {
      if !NotBefore(last, at) {
        return Err(ClockRollback);
      }
      if !(at.mono <= session.value.deadline && at.wall <= session.value.started.wall + MAX_WINDOW) {
        return Err(TimingUnproven);
      }
      if transport.active.None? {
        return Err(EvidenceInvalid);
      }
      if !(at.mono <= started.mono + duration && at.wall <= started.wall + duration) {
        return Err(Timeout);
      }
      last := at;
      return Ok(());
    }

    /** One event: who sent it, when, and what it adds. */
    method TakeEvent(op: Operation, script: Script, x: Intake, e: Event) returns (r: Result<Intake, Reason>)
      requires session.Some? && total <= MAX_AGGREGATE && InTime(op, script.started, last)
      requires |x.out| <= op.outCap && |x.err| <= op.errCap && |x.out| + |x.err| <= total
      modifies this`last, this`total, transport`uses, transport`active, transport`closed
      ensures old(transport.closed) ==> transport.closed
      ensures transport.active == old(transport.active) || (transport.closed && transport.active.None?)
      ensures NotBefore(old(last), last) && old(total) <= total <= MAX_AGGREGATE
      ensures r.Ok? || transport.active.Some? ==>
                match OneEvent(op, session.value, script.started, MAX_AGGREGATE - old(total) + |x.out| + |x.err|, Flow(x, old(last)), e)
                case Err(reason) => r == Err(reason)
                case Ok(f) => r == Ok(f.taken) && last == f.last
      ensures r.Ok? ==>
                && InTime(op, script.started, last) && |r.value.out| <= op.outCap && |r.value.err| <= op.errCap
                && total == old(total) + |r.value.out| + |r.value.err| - |x.out| - |x.err|
    {
      hide IdentityOf;
      if x.completed {
        return Err(StreamInvalid);
      }
      var identity := IdentityOf(session.value, e.reader);
      if identity.Err? {
        return Err(identity.error);
      }
      transport.Yield();
      var clock := Clock(e.at, script.started, op.duration);
      if clock.Err? {
        return Err(clock.error);
      }
      r := Absorb(op, x, e, MAX_AGGREGATE - total);
      if r.Ok? {
        total := total + |r.value.out| + |r.value.err| - |x.out| - |x.err|;
      }
    }

    /** The event loop of one command.  Unless a kill closes the transport on the way, it does exactly what the
        script's events say. */
    method Drain(op: Operation, script: Script) returns (r: Result<Intake, Reason>)
      requires session.Some? && total <= MAX_AGGREGATE && last == script.started
      requires InTime(op, script.started, last)
      requires transport.closed || transport.active == Some(script)
      requires transport.index == 0
      modifies this`last, this`total, transport`index, transport`uses, transport`active, transport`closed
      ensures old(transport.closed) ==> transport.closed
      ensures total <= MAX_AGGREGATE && total >= old(total) && NotBefore(old(last), last)
      ensures r.Ok? || !transport.closed ==>
                match Flowed(op, session.value, script.started, Room(old(total)), script.started, script.events)
                case Err(reason) => r == Err(reason)
                case Ok(f) => r == (if f.taken.completed then Ok(f.taken) else Err(TransportIncomplete)) && last == f.last
      ensures r.Ok? ==>
                && r.value.completed && |r.value.out| <= op.outCap && |r.value.err| <= op.errCap
                && total == old(total) + |r.value.out| + |r.value.err| && InTime(op, script.started, last)
                && transport.index == |script.events| && (transport.closed || transport.active == Some(script))
    {
      hide OneEvent, Flowed;
      NothingTaken(op, session.value, script.started, Room(total), script.started, script.events);
      var x, i := NOTHING, 0;
      ghost var s, room := session.value, Room(total);
      while true
        invariant 0 <= i <= |script.events| && transport.index == i && total <= MAX_AGGREGATE && NotBefore(old(last), last)
        invariant Flowed(op, s, script.started, room, script.started, script.events[..i]) == Ok(Flow(x, last))
        invariant |x.out| <= op.outCap && |x.err| <= op.errCap && total == old(total) + |x.out| + |x.err|
        invariant InTime(op, script.started, last)
        invariant (transport.closed || transport.active == Some(script)) && (old(transport.closed) ==> transport.closed)
        decreases |script.events| - i
      {
        var pulled := transport.Pull();
        if pulled.Err? {
          return Err(pulled.error);
        }
        if pulled.value.None? {
          break;
        }
        FlowDecides(op, s, script.started, room, script.started, script.events, i);
        r := TakeEvent(op, script, x, pulled.value.value);
        if r.Err? { return; }
        x, i := r.value, i + 1;
      }
      assert script.events[..i] == script.events;
      if !x.completed {
        return Err(TransportIncomplete);
      }
      return Ok(x);
    }

    predicate InTime(op: Operation, started: Time, at: Time)
      requires session.Some?
      reads `session
    {
      && NotBefore(started, at) && at.mono <= session.value.deadline && at.wall <= session.value.started.wall + MAX_WINDOW
      && at.mono <= started.mono + op.duration && at.wall <= started.wall + op.duration
    }

    function BooksNow(): Books
      reads `issued, `last, `total
    {
      Books(issued, last, total)
    }

    predicate Next(request: Request)
      reads `session, `issued
    {
      session.Some? && |issued| < |plan.requests| && request == plan.requests[|issued|]
    }

    /** One request of the plan.  Unless a kill closes the transport on the way, it does exactly what the script of
        that request says; a returned artifact extends the batch and a refused one leaves it as it was. */
    method Run(request: Request) returns (r: Result<Artifact, Reason>)
      requires Valid() && transport.active.None?
      modifies this, transport
      ensures Valid() && session == old(session) && (old(transport.closed) ==> transport.closed)
      ensures !old(Next(request)) ==> r == Err(SourceSubstitution) && issued == old(issued) && transport.closed == old(transport.closed)
      ensures old(Next(request)) && (r.Ok? || !transport.closed) ==>
                match RunOne(plan, session.value, transport.scripts, sha, old(BooksNow()), old(transport.used), request)
                case Err(reason) => r == Err(reason)
                case Ok(next) => r.Ok? && BooksNow() == next
                                 && transport.active.None? && transport.used == old(transport.used) + {request.uuid}
      ensures r.Ok? ==> issued == old(issued) + [r.value] && (old(Exact()) ==> Exact())
                        && r.value.request == request && Told(plan, transport.scripts, r.value)
      ensures r.Err? ==> issued == old(issued) || (transport.closed && |issued| == |old(issued)| + 1)
    {
      hide BatchOk, ArtifactOk, PlanOk, Bytes, RunOne, Told;
      if session.None? || |issued| >= |plan.requests| || request != plan.requests[|issued|] {
        return Err(SourceSubstitution);
      }
      r := OpenAndRead(request);
    }

    method OpenAndRead(request: Request) returns (r: Result<Artifact, Reason>)
      requires Valid() && transport.active.None? && Next(request)
      modifies this`issued, this`last, this`total, transport
      ensures Valid() && (old(transport.closed) ==> transport.closed)
      ensures r.Ok? || !transport.closed ==>
                match RunOne(plan, session.value, transport.scripts, sha, old(BooksNow()), old(transport.used), request)
                case Err(reason) => r == Err(reason)
                case Ok(next) => r.Ok? && BooksNow() == next
                                 && transport.active.None? && transport.used == old(transport.used) + {request.uuid}
      ensures r.Ok? ==> issued == old(issued) + [r.value] && (old(Exact()) ==> Exact())
                        && r.value.request == request && Told(plan, transport.scripts, r.value)
      ensures r.Err? ==> issued == old(issued) || (transport.closed && |issued| == |old(issued)| + 1)
    {
      hide BatchOk, ArtifactOk, PlanOk, Bytes, Data, IdentityOf, Flowed, Find, Told, RunScript, RunOne, Whole, NotBefore, Previous;
      assert total <= MAX_AGGREGATE;
      hide Valid;
      RunOneTells(plan, session.value, transport.scripts, sha, BooksNow(), transport.used, request);
      ghost var b, used := BooksNow(), transport.used;
      var opening := transport.Open(request);
      if opening.Err? {
        return Err(opening.error);
      }
      assert RunOne(plan, session.value, transport.scripts, sha, b, used, request)
             == RunScript(plan, session.value, sha, b, opening.value);
      r := Read(request, opening.value);
      if r.Ok? {
        assert issued[|b.issued|] == r.value;
      }
    }

    lemma PlansSession()
      requires Valid() && session.Some?
      ensures session.value.plan == plan.digest && session.value.reader == plan.reader
    {
    }

    /** The opened script: its identity, command and binary, its start, its events and its artifact. */
    method Read(request: Request, script: Script) returns (r: Result<Artifact, Reason>)
      requires Valid() && Next(request) && script.request == request
      requires transport.active == Some(script) && transport.index == 0
      modifies this`issued, this`last, this`total, transport`index, transport`uses, transport`active, transport`closed
      ensures Valid() && (old(transport.closed) ==> transport.closed)
      ensures r.Ok? || !transport.closed ==> r == match RunScript(plan, session.value, sha, old(BooksNow()), script) case Err(reason) => Err(reason) case Ok(next) => Ok(next.issued[|old(issued)|])
      ensures r.Ok? ==> transport.active.None? && RunScript(plan, session.value, sha, old(BooksNow()), script) == Ok(BooksNow())
      ensures r.Ok? ==> issued == old(issued) + [r.value] && (old(Exact()) ==> Exact())
      ensures r.Err? ==> issued == old(issued) || (transport.closed && |issued| == |old(issued)| + 1)
    {
      hide BatchOk, ArtifactOk, PlanOk, Bytes, Data, IdentityOf, Flowed;
      PlansSession();
      var op := plan.operation(request.source);
      var identity := IdentityOf(session.value, script.before);
      if identity.Err? {
        return Err(identity.error);
      }
      if script.argv != op.argv || script.binary != plan.binaryAt(op.binary) {
        return Err(BinaryMismatch);
      }
      ghost var before := last;
      transport.Yield();
      var clock := Clock(script.started, script.started, op.duration);
      if clock.Err? {
        return Err(clock.error);
      }
      var taken := Drain(op, script);
      if taken.Err? {
        return Err(taken.error);
      }
      r := Issue(script, taken.value, before);
    }

    /** The completed output becomes an artifact with its receipt, and the script is put back; a kill may
        still come in between. */
    method Issue(script: Script, taken: Intake, ghost before: Time) returns (r: Result<Artifact, Reason>)
      requires session.Some? && PlanOk(plan) && BatchOk(plan, session.value, issued, sha) && total <= MAX_AGGREGATE
      requires Checked(plan, session.value, issued, Made(script, taken), sha, before)
      requires Bytes(issued) + |taken.out| + |taken.err| <= total
      requires transport.index == |script.events| && (transport.closed || transport.active == Some(script))
      modifies this`issued, transport`active, transport`uses, transport`closed
      ensures old(transport.closed) ==> transport.closed
      ensures issued == old(issued) + [old(Made(script, taken))]
      ensures r.Ok? ==> r.value == old(Made(script, taken)) && transport.active.None?
      ensures r.Err? ==> transport.closed
      ensures Valid() && Bytes(issued) == old(Bytes(issued)) + |taken.out| + |taken.err|
    {
      hide BatchOk, ArtifactOk, PlanOk, Bytes;
      var a := Made(script, taken);
      BatchGrows(plan, session.value, issued, a, sha, before);
      issued := issued + [a];
      var released := transport.Release();
      return if released then Ok(a) else Err(StreamInvalid);
    }

    function Made(script: Script, taken: Intake): Artifact
      requires session.Some?
      reads `session, `issued, `last
    {
      ArtifactOf(session.value, sha, script, |issued|, Flow(taken, last))
    }
  }

  lemma PlaceStays(plan: Plan, s: Session, issued: seq<Artifact>, a: Artifact, i: nat)
    requires i < |issued| && PlaceOk(plan, s, issued, i)
    ensures PlaceOk(plan, s, issued + [a], i)
  {
    assert Previous(s, issued + [a], i) == Previous(s, issued, i);
  }

  /** What the runner has checked of one artifact when it builds it. */
  ghost predicate Checked(plan: Plan, s: Session, issued: seq<Artifact>, a: Artifact, sha: seq<Byte> -> nat, before: Time) {
    var op := plan.operation(a.request.source);
    && |issued| < |plan.requests| && a.session == s && a.request == plan.requests[|issued|]
    && s.plan == plan.digest && s.reader == plan.reader && s.deadline == s.started.mono + MAX_WINDOW
    && NotBefore(s.started, before) && NotBefore(Previous(s, issued, |issued|), before) && NotBefore(before, a.started)
    && a.binary == plan.binaryAt(op.binary) && |a.out| <= op.outCap && |a.err| <= op.errCap
    && NotBefore(a.started, a.finished) && a.finished.mono <= s.deadline
    && a.finished.wall <= s.started.wall + MAX_WINDOW
    && a.finished.mono <= a.started.mono + op.duration && a.finished.wall <= a.started.wall + op.duration
    && a.receipt == Receipt(s.uuid, a.request, |issued|, sha(a.out), sha(a.err))
  }

  lemma CheckedArtifact(plan: Plan, s: Session, issued: seq<Artifact>, a: Artifact, sha: seq<Byte> -> nat, before: Time)
    requires PlanOk(plan) && Checked(plan, s, issued, a, sha, before)
    ensures ArtifactOk(a, plan, sha)
  {
  }

  lemma CheckedPlace(plan: Plan, s: Session, issued: seq<Artifact>, a: Artifact, sha: seq<Byte> -> nat, before: Time)
    requires Checked(plan, s, issued, a, sha, before)
    ensures PlaceOk(plan, s, issued + [a], |issued|)
  {
    assert Previous(s, issued + [a], |issued|) == Previous(s, issued, |issued|);
  }

  lemma BytesOfOneMore(issued: seq<Artifact>, a: Artifact)
    ensures Bytes(issued + [a]) == Bytes(issued) + |a.out| + |a.err|
  {
    assert (issued + [a])[..|issued|] == issued;
  }

  lemma CheckedSession(plan: Plan, s: Session, issued: seq<Artifact>, a: Artifact, sha: seq<Byte> -> nat, before: Time)
    requires Checked(plan, s, issued, a, sha, before)
    ensures s.plan == plan.digest && s.reader == plan.reader
  {
  }

  /** The incremental checks of one run are what the batch asks of the next place. */
  lemma BatchGrows(plan: Plan, s: Session, issued: seq<Artifact>, a: Artifact, sha: seq<Byte> -> nat, before: Time)
    requires PlanOk(plan) && BatchOk(plan, s, issued, sha) && Checked(plan, s, issued, a, sha, before)
    requires Bytes(issued) + |a.out| + |a.err| <= MAX_AGGREGATE
    ensures BatchOk(plan, s, issued + [a], sha)
    ensures Bytes(issued + [a]) == Bytes(issued) + |a.out| + |a.err|
    ensures Previous(s, issued + [a], |issued| + 1) == a.finished
  {
    hide PlanOk, Checked, ArtifactOk, PlaceOk;
    var longer := issued + [a];
    BytesOfOneMore(issued, a);
    hide Bytes;
    CheckedSession(plan, s, issued, a, sha, before);
    forall i | 0 <= i < |longer|
      ensures ArtifactOk(longer[i], plan, sha) && PlaceOk(plan, s, longer, i)
    {
      if i < |issued| {
        PlaceStays(plan, s, issued, a, i);
      } else {
        CheckedArtifact(plan, s, issued, a, sha, before);
        CheckedPlace(plan, s, issued, a, sha, before);
      }
    }
  }

  // ----- collector -----

  /** The one terminal result of a collector. */
  datatype Outcome = Preserved(session: Session, artifacts: seq<Artifact>) | Refused(reason: Reason)

  class Collector {
    const runner: Runner
    const uuid: nat
    const started: Time
    const enabled: bool
    var terminal: Option<Outcome>
    var killed: bool

    constructor (runner: Runner, uuid: nat, started: Time, enabled: bool)
      ensures terminal.None? && !killed
      ensures this.runner == runner && this.uuid == uuid && this.started == started && this.enabled == enabled
    {
      this.runner, this.uuid, this.started, this.enabled := runner, uuid, started, enabled;
      terminal, killed := None, false;
    }

    ghost predicate Fresh()
      reads this, runner, runner.transport
    {
      && runner.Valid()
      && (terminal.None? ==>
            && runner.session.None? && runner.issued == [] && runner.total == 0 && !killed
            && runner.transport.active.None? && runner.transport.used == {} && !runner.transport.closed)
    }

    /** The first half of a kill: the flag, and the terminal unless there is one. */
    method Flag()
      modifies this`terminal, this`killed
      ensures killed && terminal == if old(terminal).None? then Some(Refused(Killed)) else old(terminal)
    {
      killed := true;
      if terminal.None? {
        terminal := Some(Refused(Killed));
      }
    }

    method Kill()
      modifies this`terminal, this`killed, runner.transport`active, runner.transport`closed
      ensures killed && runner.transport.closed && runner.transport.active.None?
      ensures terminal == if old(terminal).None? then Some(Refused(Killed)) else old(terminal)
    {
      Flag();
      runner.transport.Close();
    }

    function SessionOf(): Session { Session(uuid, runner.plan.digest, runner.plan.reader, started, started.mono + MAX_WINDOW) }

    /** What the whole plan comes to when no kill interferes. */
    function Uninterrupted(): Result<Books, Reason> {
      RunAll(runner.plan, SessionOf(), runner.transport.scripts, runner.sha, |runner.plan.requests|)
    }

    /**
      One capture of the whole plan.  A kill from another thread first raises its flag and then closes
      the transport: `kills(i)` says that a flag is raised since run `i - 1` (before publication for the
      last `i`), and the transport's `cut` says at which of its uses, inside any run, a close lands; a
      close never comes without its flag.  Unless a kill came, the outcome is what the scripts say: the
      artifacts of the whole plan, or the first refusal.  The manifest check, which re-checks the whole
      batch, never decides.
    */
    method Capture(kills: nat -> bool) returns (t: Outcome)
      requires Fresh()
      modifies this`terminal, this`killed, runner, runner.transport
      ensures terminal == Some(t) && Fresh()
      ensures old(terminal).Some? ==> t == old(terminal).value && killed == old(killed)
      ensures old(terminal).None? ==>
                t == if !enabled then Refused(Disabled)
                     else if killed then Refused(Killed)
                     else match Uninterrupted()
                          case Err(reason) => Refused(reason)
                          case Ok(books) => Preserved(SessionOf(), books.issued)
      ensures old(terminal).None? && t.Preserved? ==>
                && ManifestOk(runner.plan, t.session, t.artifacts, runner.sha)
                && runner.issued == t.artifacts && runner.total == Bytes(t.artifacts)
                && forall i | 0 <= i < |t.artifacts| :: Told(runner.plan, runner.transport.scripts, t.artifacts[i])
    {
      hide BatchOk, PlanOk, ArtifactOk, PlaceOk, Bytes, Told, RunAll;
      if terminal.Some? {
        return terminal.value;
      }
      var reason := EvidenceInvalid;
      if !enabled {
        reason := Disabled;
      } else if killed {
        reason := Killed;
      } else {
        reason := Attempt(kills);
      }
      runner.transport.Close();
      if terminal.None? {
        terminal := Some(Refused(reason));
      }
      t := terminal.value;
    }

    method Attempt(kills: nat -> bool) returns (reason: Reason)
      requires Fresh() && terminal.None? && enabled
      modifies this`terminal, this`killed, runner, runner.transport
      ensures runner.Valid()
      ensures if killed then terminal == Some(Refused(Killed))
              else match Uninterrupted()
                   case Err(first) => terminal.None? && reason == first
                   case Ok(books) => terminal == Some(Preserved(SessionOf(), books.issued))
      ensures terminal.Some? && terminal.value.Preserved? ==>
                var artifacts := terminal.value.artifacts;
                && ManifestOk(runner.plan, terminal.value.session, artifacts, runner.sha)
                && runner.issued == artifacts && runner.total == Bytes(artifacts)
                && forall i | 0 <= i < |artifacts| :: Told(runner.plan, runner.transport.scripts, artifacts[i])
    {
      hide BatchOk, PlanOk, ArtifactOk, PlaceOk, Bytes, Told, RunOne;
      NoBytes();
      var bound := runner.Bind(uuid, started);
      assert bound;
      var artifacts, i := [], 0;
      while i < |runner.plan.requests|
        invariant 0 <= i <= |runner.plan.requests| && runner.Valid() && runner.Exact()
        invariant runner.session == Some(SessionOf())
        invariant runner.issued == artifacts && |artifacts| == i
        invariant runner.transport.active.None? && (runner.transport.closed ==> killed)
        invariant runner.transport.used == Uuids(runner.plan.requests[..i])
        invariant RunAll(runner.plan, SessionOf(), runner.transport.scripts, runner.sha, i) == Ok(runner.BooksNow())
        invariant terminal == if killed then Some(Refused(Killed)) else None
        invariant forall k | 0 <= k < i :: Told(runner.plan, runner.transport.scripts, artifacts[k])
      {
        if kills(i) {
          Flag();
        }
        var before := runner.transport.closed;
        UuidsGrow(runner.plan.requests, i);
        var one := runner.Run(runner.plan.requests[i]);
        if runner.transport.closed && !before {
          Flag();
        }
        if one.Err? {
          if !killed {
            RunStops(runner.plan, SessionOf(), runner.transport.scripts, runner.sha, i + 1, |runner.plan.requests|);
          }
          return one.error;
        }
        artifacts, i := artifacts + [one.value], i + 1;
      }
      var ok := CheckManifest(runner.plan, runner.session.value, artifacts, runner.sha);
      assert ok;
      if kills(i) {
        Flag();
      }
      if killed {
        return Killed;
      }
      terminal := Some(Preserved(runner.session.value, artifacts));
      reason := EvidenceInvalid;
    }
  }

  lemma NoBytes()
    ensures Bytes([]) == 0 && Uuids([]) == {}
  {
  }

  lemma UuidsGrow(requests: seq<Request>, i: nat)
    requires i < |requests|
    ensures Uuids(requests[..i + 1]) == Uuids(requests[..i]) + {requests[i].uuid}
  {
    assert requests[..i + 1] == requests[..i] + [requests[i]];
  }
}
