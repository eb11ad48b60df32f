/** The control channel of one invocation and the independent verifier of what it carried. */
module HelperTranscript {
  import opened Base
  import opened HelperProtocol
  import opened HelperKernel

  const MAX_AGGREGATE := 16 * 1048576
  const CHANNEL_BYTES := MAX_AGGREGATE + 2 * 1048576

  /** The pinned invocation, reduced to what the protocol compares.  Digests are 32 opaque bytes;
      `sha` stands for SHA-256 and nothing is assumed of it but its length. */
  datatype Invocation = Invocation(
    binding: Binding, fdCatalog: seq<Byte>, commit: Kind -> seq<Byte>, cleanupReceipt: seq<Byte>,
    sha: seq<Byte> -> seq<Byte>, outCap: nat, errCap: nat,
    started: Time, deadline: nat, timing: Timing)

  ghost predicate WellFormed(inv: Invocation) {
    && |inv.fdCatalog| == |inv.cleanupReceipt| == 32
    && (forall k :: |inv.commit(k)| == 32)
    && (forall s :: |inv.sha(s)| == 32)
    && inv.outCap <= 1048576 && inv.errCap <= 4096
  }

  // ----- channel -----

  class Channel {
    const binding: Binding
    const transform: (nat, seq<Byte>) -> Option<seq<Byte>>   // what the wire does to frame n
    var frames: seq<seq<Byte>>
    var bytes: nat
    var sequence: nat
    var closed: bool
    var finishedAt: Option<Time>

    constructor (binding: Binding, transform: (nat, seq<Byte>) -> Option<seq<Byte>>)
      ensures this.binding == binding && this.transform == transform
      ensures Valid() && frames == [] && !closed && finishedAt == None
    {
      this.binding, this.transform := binding, transform;
      frames, bytes, sequence, closed, finishedAt := [], 0, 0, false, None;
    }

    ghost predicate Valid()
      reads this
    {
      && |frames| <= MAX_MESSAGES && bytes <= |frames| * MAX_FRAME
      && (Faithful(transform) ==> sequence == |frames|)
    }

    /** The byte cap of the source never decides: a frame is refused for its content, its size,
        or because 4096 frames were already carried. */
    method Send(kind: Kind, payload: seq<Byte>) returns (r: Result<(), Trouble>)
      requires Valid()
      modifies this`frames, this`bytes, this`sequence
      ensures Valid()
      ensures var made := MakeMessage(kind, old(sequence), payload);
              && (r.Ok? <==> && !closed && made.Ok? && |old(frames)| < MAX_MESSAGES
                             && var sent := transform(old(sequence), Encode(binding, made.value));
                                sent.Some? && |sent.value| <= MAX_FRAME)
              && (r.Ok? ==> frames == old(frames) + [transform(old(sequence), Encode(binding, made.value)).value])
      ensures r.Err? ==> frames == old(frames)
                         && r.error == Violation(if closed then SequenceInvalid
                                                 else if MakeMessage(kind, old(sequence), payload).Err?
                                                 then MakeMessage(kind, old(sequence), payload).error else ProtocolInvalid)
      ensures Faithful(transform) && !closed && PayloadOk(kind, payload) ==>
                r == Told(Unless(|old(frames)| < MAX_MESSAGES, EvidenceInvalid))
    {
      hide Encode;
      if closed {
        return Err(Violation(SequenceInvalid));
      }
      var made := MakeMessage(kind, sequence, payload);
      if made.Err? {
        return Err(Violation(made.error));
      }
      var sent := transform(sequence, Encode(binding, made.value));
      assert Faithful(transform) ==> sent == Some(Encode(binding, made.value));
      sequence := sequence + 1;
      if !(sent.Some? && |sent.value| <= MAX_FRAME && |frames| < MAX_MESSAGES
           && bytes + |sent.value| <= CHANNEL_BYTES) {
        return Err(Violation(ProtocolInvalid));
      }
      bytes, frames := bytes + |sent.value|, frames + [sent.value];
      return Ok(());
    }
  }

  ghost predicate Faithful(transform: (nat, seq<Byte>) -> Option<seq<Byte>>) {
    forall n, raw :: transform(n, raw) == Some(raw)
  }

  // ----- transcript -----

  datatype Transcript = Transcript(
    sequence: nat, stage: nat, eof: set<Stream>, out: seq<Byte>, err: seq<Byte>,
    exited: bool, cleanup: Option<seq<Byte>>, complete: bool, error: Option<(Reason, bool)>)

  const SILENCE := Transcript(0, 0, {}, [], [], false, None, false, None)

  const BOTH := {OutStream, ErrStream}

  function PhaseAt(stage: nat): Kind
    requires stage < 4
  {
    match stage
    case 0 => Ready
    case 1 => Entered
    case 2 => Credentials
    case _ => Exec
  }

  /** Digests and lengths of both streams, then the cleanup receipt. */
  function Receipt(inv: Invocation, out: seq<Byte>, err: seq<Byte>, cleanup: seq<Byte>): seq<Byte>
    requires |out| < 0x1_0000_0000 && |err| < 0x1_0000_0000
  {
    inv.sha(out) + inv.sha(err) + U64(|out|) + U64(|err|) + cleanup
  }

  function StreamOf(k: Kind): Stream { if k == Stdout || k == StdoutEof then OutStream else ErrStream }

  function Held(t: Transcript, s: Stream): seq<Byte> { if s == OutStream then t.out else t.err }

  function Cap(inv: Invocation, s: Stream): nat { if s == OutStream then inv.outCap else inv.errCap }

  predicate WithinCaps(inv: Invocation, t: Transcript) {
    |t.out| <= inv.outCap && |t.err| <= inv.errCap && |t.out| + |t.err| <= MAX_AGGREGATE
  }

  function TakeData(inv: Invocation, t: Transcript, s: Stream, data: seq<Byte>): Result<Transcript, Reason> {
    if s in t.eof || t.exited || t.cleanup.Some? then Err(SequenceInvalid)
    else if |Held(t, s)| + |data| > Cap(inv, s) then Err(if s == OutStream then StdoutLimit else StderrLimit)
    else if |t.out| + |t.err| + |data| > MAX_AGGREGATE then Err(AggregateLimit)
    else Ok(if s == OutStream then t.(out := t.out + data) else t.(err := t.err + data))
  }

  /** What one decoded message does to the verifier. */
  function Step(inv: Invocation, t: Transcript, m: Message): Result<Transcript, Reason>
    requires ValidMessage(m)
  {
    if t.complete || t.error.Some? || m.sequence != t.sequence then Err(SequenceInvalid)
    else Take(inv, t.(sequence := t.sequence + 1), m)
  }

  function Take(inv: Invocation, t: Transcript, m: Message): Result<Transcript, Reason>
    requires ValidMessage(m)
  {
    var data := m.payload;
    if m.kind == Error then
      Ok(t.(error := Some((ReasonAt(FromU16(data[0], data[1])), data[2] == 1))))
    else if t.stage < 4 then
      if m.kind == PhaseAt(t.stage) && data == inv.commit(m.kind) then Ok(t.(stage := t.stage + 1))
      else Err(SequenceInvalid)
    else match m.kind
      case Stdout | Stderr => TakeData(inv, t, StreamOf(m.kind), data)
      case StdoutEof | StderrEof =>
        if StreamOf(m.kind) in t.eof || t.exited then Err(SequenceInvalid)
        else Ok(t.(eof := t.eof + {StreamOf(m.kind)}))
      case Exit =>
        if t.eof == BOTH && !t.exited && FromU16(data[0], data[1]) == 0 then Ok(t.(exited := true))
        else Err(IncompleteOutput)
      case Reaped =>
        if t.exited && t.cleanup.None? then Ok(t.(cleanup := Some(data))) else Err(SequenceInvalid)
      case Complete =>
        if !(t.exited && t.cleanup.Some?) then Err(SequenceInvalid)
        else if |t.out| < 0x1_0000_0000 && |t.err| < 0x1_0000_0000
                && data == Receipt(inv, t.out, t.err, t.cleanup.value) then Ok(t.(complete := true))
        else Err(IncompleteOutput)
      case _ => Err(SequenceInvalid)
  }

  function Accept(inv: Invocation, t: Transcript, raw: seq<Byte>): Result<Transcript, Reason> {
    match Decode(inv.binding, raw)
    case Err(reason) => Err(reason)
    case Ok(m) => Step(inv, t, m)
  }

  /** The verifier after a whole log of frames. */
  function Hear(inv: Invocation, frames: seq<seq<Byte>>): Result<Transcript, Reason> {
    if frames == [] then Ok(SILENCE)
    else
      match Hear(inv, frames[..|frames| - 1])
      case Err(reason) => Err(reason)
      case Ok(t) => Accept(inv, t, frames[|frames| - 1])
  }

  function Payloads(binding: Binding, frames: seq<seq<Byte>>, kind: Kind): seq<Byte> {
    if frames == [] then []
    else
      Payloads(binding, frames[..|frames| - 1], kind)
      + match Decode(binding, frames[|frames| - 1])
        case Ok(m) => if m.kind == kind then m.payload else []
        case Err(_) => []
  }

  /** Order facts every accepted log keeps: caps hold, exit needs both ends of file, the cleanup
      receipt needs the exit, completion needs the receipt. */
  predicate Sane(inv: Invocation, t: Transcript) {
    && t.stage <= 4 && WithinCaps(inv, t)
    && (t.exited ==> t.eof == BOTH && t.stage == 4)
    && (t.cleanup.Some? ==> t.exited) && (t.complete ==> t.cleanup.Some? && t.error.None?)
  }

  lemma StepMeans(inv: Invocation, t: Transcript, m: Message)
    requires ValidMessage(m) && Sane(inv, t) && Step(inv, t, m).Ok?
    ensures var u := Step(inv, t, m).value;
            && Sane(inv, u) && m.sequence == t.sequence && u.sequence == t.sequence + 1
            && u.out == t.out + (if m.kind == Stdout then m.payload else [])
            && u.err == t.err + (if m.kind == Stderr then m.payload else [])
            && (u.complete ==> m.kind == Complete && |u.out| <= MAX_AGGREGATE && |u.err| <= MAX_AGGREGATE
                               && m.payload == Receipt(inv, u.out, u.err, u.cleanup.value))
  {
  }

  /** What an accepted log means, without the verifier: frame n carries sequence number n, the two
      buffers are the data payloads of the log, whole and in order, and a completed log ends with
      the receipt over exactly those buffers. */
  lemma {:induction false} HeardMeans(inv: Invocation, frames: seq<seq<Byte>>)
    requires Hear(inv, frames).Ok?
    ensures var t := Hear(inv, frames).value;
            && t.sequence == |frames| && Sane(inv, t)
            && t.out == Payloads(inv.binding, frames, Stdout)
            && t.err == Payloads(inv.binding, frames, Stderr)
            && (t.complete ==>
                  && frames != [] && |t.out| <= MAX_AGGREGATE && |t.err| <= MAX_AGGREGATE
                  && var last := Decode(inv.binding, frames[|frames| - 1]);
                     && last.Ok? && last.value.kind == Complete
                     && last.value.payload == Receipt(inv, t.out, t.err, t.cleanup.value))
    ensures forall n | 0 <= n < |frames| ::
              Decode(inv.binding, frames[n]).Ok? && Decode(inv.binding, frames[n]).value.sequence == n
  {
    hide Step, Decode, Receipt, Sane;
    if frames == [] {
      NothingHeard(inv);
    } else {
      var front, raw := frames[..|frames| - 1], frames[|frames| - 1];
      HeardMeans(inv, front);
      HeardStep(inv, Hear(inv, front).value, raw);
      assert forall n | 0 <= n < |front| :: front[n] == frames[n];
    }
  }

  lemma NothingHeard(inv: Invocation)
    ensures Sane(inv, SILENCE) && !SILENCE.complete
  {
  }

  /** One accepted frame, decoded. */
  lemma HeardStep(inv: Invocation, t: Transcript, raw: seq<Byte>)
    requires Sane(inv, t) && Accept(inv, t, raw).Ok?
    ensures var u, m := Accept(inv, t, raw).value, Decode(inv.binding, raw);
            && m.Ok? && m.value.sequence == t.sequence && u.sequence == t.sequence + 1 && Sane(inv, u)
            && u.out == t.out + (if m.value.kind == Stdout then m.value.payload else [])
            && u.err == t.err + (if m.value.kind == Stderr then m.value.payload else [])
            && (u.complete ==> m.value.kind == Complete && |u.out| <= MAX_AGGREGATE && |u.err| <= MAX_AGGREGATE
                               && m.value.payload == Receipt(inv, u.out, u.err, u.cleanup.value))
  {
    hide Step, Decode, Receipt;
    var m := Decode(inv.binding, raw).value;
    CodecExact(inv.binding, raw, m);
    StepMeans(inv, t, m);
    SaneComplete(inv, Accept(inv, t, raw).value);
  }

  lemma SaneComplete(inv: Invocation, t: Transcript)
    requires Sane(inv, t)
    ensures t.complete ==> t.cleanup.Some?
  {
  }

  /** One more frame, encoded by the peer that shares the binding. */
  lemma HearOneMore(inv: Invocation, frames: seq<seq<Byte>>, m: Message)
    requires ValidMessage(m) && Hear(inv, frames).Ok?
    ensures Hear(inv, frames + [Encode(inv.binding, m)]) == Step(inv, Hear(inv, frames).value, m)
  {
    hide Decode, Encode, Step;
    var longer := frames + [Encode(inv.binding, m)];
    assert longer[..|longer| - 1] == frames;
    CodecExact(inv.binding, Encode(inv.binding, m), m);
  }

  /** The verifier object.  Once it has refused a frame it refuses everything. */
  class Verifier {
    const inv: Invocation
    var t: Transcript
    var failed: bool
    ghost var accepted: seq<seq<Byte>>

    constructor (inv: Invocation)
      ensures this.inv == inv && Valid() && accepted == [] && !failed && t == SILENCE
    {
      this.inv := inv;
      t, failed, accepted := SILENCE, false, [];
    }

    ghost predicate Valid()
      reads this
    {
      Hear(inv, accepted) == Ok(t)
    }

    method AcceptFrame(raw: seq<Byte>) returns (r: Result<(), Reason>)
      requires Valid()
      modifies this
      ensures Valid()
      ensures r.Ok? <==> !old(failed) && Hear(inv, old(accepted) + [raw]).Ok?
      ensures accepted == old(accepted) + (if r.Ok? then [raw] else [])
      ensures !old(failed) ==> match Accept(inv, old(t), raw) case Ok(next) => r.Ok? && t == next case Err(reason) => r == Err(reason)
      ensures failed == (old(failed) || r.Err?)
    {
      assert (accepted + [raw])[..|accepted|] == accepted;
      if failed {
        return Err(ProtocolInvalid);
      }
      match Accept(inv, t, raw) {
        case Err(reason) =>
          failed := true;
          return Err(reason);
        case Ok(next) =>
          t, accepted := next, accepted + [raw];
          return Ok(());
      }
    }

    method Finish() returns (ok: bool)
      requires Valid()
      modifies this`failed
      ensures ok <==> !old(failed) && (t.complete || t.error.Some?)
      ensures failed == (old(failed) || !ok)
    {
      ok := !failed && (t.complete || t.error.Some?);
      failed := failed || !ok;
    }
  }
}
