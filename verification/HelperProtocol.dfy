/**
The H1 binary wire format: fixed-width header, 272-byte invocation binding,
exact payload lengths, and the incremental decoder of the control stream.
*/
module HelperProtocol {
  import opened Base

  const HEADER_SIZE := 12
  const BINDING_SIZE := 272
  const CHUNK := 4096
  const MAX_BODY := BINDING_SIZE + CHUNK
  const MAX_FRAME := HEADER_SIZE + MAX_BODY
  const MAX_MESSAGES := 4096
  const VERSION := 1
  const MAGIC: seq<Byte> := [84, 67, 72, 49]  // 'TCH1'

  datatype Kind =
    | Invoke | Ready | Entered | Credentials | Exec | Stdout | Stderr | StdoutEof
    | StderrEof | Exit | Reaped | Complete | Error | Cancel

  const KIND_COUNT := 14

  /** The finite reasons a failed invocation may report, in wire order.  A refusal that is not
      one of them (an out-of-range integer, say) is reported as `EvidenceInvalid`. */
  datatype Reason =
    | ProtocolInvalid | BindingMismatch | Replay | SequenceInvalid | FdTransferInvalid
    | IdentityMismatch | PidReuse | CredentialDrift | ExecutableMismatch | PrivilegeDropFailed
    | Timeout | ClockRollback | Killed | ParentDied | HelperCrashed | SpawnResponseLost
    | IncompleteOutput | StdoutLimit | StderrLimit | AggregateLimit | CleanupUnproven
    | NativeIdentityUnreviewed | Disabled | EvidenceInvalid

  const REASON_COUNT := 24

  type Binding = b: seq<Byte> | |b| == BINDING_SIZE witness seq(BINDING_SIZE, i => 0)

  // Codes on the wire, in the order of the source tables.

  function KindCode(x: Kind): (code: nat)
    ensures 1 <= code <= KIND_COUNT && KindAt(code) == x
  {
    match x
    case Invoke => 1 case Ready => 2 case Entered => 3 case Credentials => 4
    case Exec => 5 case Stdout => 6 case Stderr => 7 case StdoutEof => 8
    case StderrEof => 9 case Exit => 10 case Reaped => 11 case Complete => 12
    case Error => 13 case Cancel => 14
  }

  function KindAt(code: nat): Kind
    requires 1 <= code <= KIND_COUNT
  {
    if code == 1 then Invoke else if code == 2 then Ready else if code == 3 then Entered else
    if code == 4 then Credentials else if code == 5 then Exec else if code == 6 then Stdout else
    if code == 7 then Stderr else if code == 8 then StdoutEof else if code == 9 then StderrEof else
    if code == 10 then Exit else if code == 11 then Reaped else if code == 12 then Complete else
    if code == 13 then Error else Cancel
  }

  function ReasonCode(x: Reason): (code: nat)
    ensures code < REASON_COUNT && ReasonAt(code) == x
  {
    match x
    case ProtocolInvalid => 0 case BindingMismatch => 1 case Replay => 2 case SequenceInvalid => 3
    case FdTransferInvalid => 4 case IdentityMismatch => 5 case PidReuse => 6 case CredentialDrift => 7
    case ExecutableMismatch => 8 case PrivilegeDropFailed => 9 case Timeout => 10 case ClockRollback => 11
    case Killed => 12 case ParentDied => 13 case HelperCrashed => 14 case SpawnResponseLost => 15
    case IncompleteOutput => 16 case StdoutLimit => 17 case StderrLimit => 18 case AggregateLimit => 19
    case CleanupUnproven => 20 case NativeIdentityUnreviewed => 21 case Disabled => 22 case EvidenceInvalid => 23
  }

  function ReasonAt(code: nat): Reason
    requires code < REASON_COUNT
  {
    if code == 0 then ProtocolInvalid else if code == 1 then BindingMismatch else if code == 2 then Replay else
    if code == 3 then SequenceInvalid else if code == 4 then FdTransferInvalid else if code == 5 then IdentityMismatch else
    if code == 6 then PidReuse else if code == 7 then CredentialDrift else if code == 8 then ExecutableMismatch else
    if code == 9 then PrivilegeDropFailed else if code == 10 then Timeout else if code == 11 then ClockRollback else
    if code == 12 then Killed else if code == 13 then ParentDied else if code == 14 then HelperCrashed else
    if code == 15 then SpawnResponseLost else if code == 16 then IncompleteOutput else if code == 17 then StdoutLimit else
    if code == 18 then StderrLimit else if code == 19 then AggregateLimit else if code == 20 then CleanupUnproven else
    if code == 21 then NativeIdentityUnreviewed else if code == 22 then Disabled else EvidenceInvalid
  }

  lemma KindCodeInverse(code: nat)
    requires 1 <= code <= KIND_COUNT
    ensures KindCode(KindAt(code)) == code
  {
  }

  /** Payload length of every kind except the two data kinds. */
  function ExactLength(k: Kind): nat {
    match k
    case Invoke | Ready | Entered | Credentials | Exec | Reaped => 32
    case Complete => 112
    case Exit => 2
    case Error => 3
    case _ => 0
  }

  datatype Message = Message(kind: Kind, sequence: nat, payload: seq<Byte>)

  predicate PayloadOk(k: Kind, payload: seq<Byte>) {
    && (if k == Stdout || k == Stderr then 0 < |payload| <= CHUNK else |payload| == ExactLength(k))
    && (k == Exit ==> FromU16(payload[0], payload[1]) <= 255)
    && (k == Error ==> FromU16(payload[0], payload[1]) < REASON_COUNT && payload[2] <= 1)
  }

  predicate ValidMessage(m: Message) {
    m.sequence < MAX_MESSAGES && PayloadOk(m.kind, m.payload)
  }

  /** The message constructor: the record exists only if it is well formed. */
  function MakeMessage(k: Kind, sequence: nat, payload: seq<Byte>): Result<Message, Reason> {
    if MAX_MESSAGES <= sequence then Err(EvidenceInvalid)
    else if !PayloadOk(k, payload) then Err(ProtocolInvalid)
    else Ok(Message(k, sequence, payload))
  }

  function Header(kind: Kind, sequence: nat, size: nat): (raw: seq<Byte>)
    requires sequence < MAX_MESSAGES && size <= MAX_BODY
    ensures |raw| == HEADER_SIZE
  {
    MAGIC + [VERSION, KindCode(kind), sequence / 256, sequence % 256, 0, 0, size / 256, size % 256]
  }

  function Encode(binding: Binding, m: Message): (raw: seq<Byte>)
    requires ValidMessage(m)
    ensures |raw| == HEADER_SIZE + BINDING_SIZE + |m.payload|
  {
    Header(m.kind, m.sequence, BINDING_SIZE + |m.payload|) + (binding + m.payload)
  }

  // ----- reading a header -----

  function DeclaredSequence(raw: seq<Byte>): nat
    requires HEADER_SIZE <= |raw|
  {
    FromU16(raw[6], raw[7])
  }

  function DeclaredSize(raw: seq<Byte>): nat
    requires HEADER_SIZE <= |raw|
  {
    FromU32(raw[8], raw[9], raw[10], raw[11])
  }

  predicate HeaderOk(raw: seq<Byte>)
    requires HEADER_SIZE <= |raw|
  {
    && raw[..4] == MAGIC && raw[4] == VERSION && 1 <= raw[5] <= KIND_COUNT
    && BINDING_SIZE <= DeclaredSize(raw) <= MAX_BODY
  }

  function Decode(binding: Binding, raw: seq<Byte>): Result<Message, Reason> {
    if !(HEADER_SIZE + BINDING_SIZE <= |raw| <= MAX_FRAME) then Err(ProtocolInvalid)
    else if !(HeaderOk(raw) && |raw| == HEADER_SIZE + DeclaredSize(raw)) then Err(ProtocolInvalid)
    else if raw[HEADER_SIZE..HEADER_SIZE + BINDING_SIZE] != binding then Err(BindingMismatch)
    else MakeMessage(KindAt(raw[5]), DeclaredSequence(raw), raw[HEADER_SIZE + BINDING_SIZE..])
  }

  /** The header reads back as written, and no other twelve bytes read that way. */
  lemma HeaderExact(raw: seq<Byte>, kind: Kind, sequence: nat, size: nat)
    requires HEADER_SIZE <= |raw| && sequence < MAX_MESSAGES && BINDING_SIZE <= size <= MAX_BODY
    ensures raw[..HEADER_SIZE] == Header(kind, sequence, size) <==>
            && HeaderOk(raw) && KindAt(raw[5]) == kind
            && DeclaredSequence(raw) == sequence && DeclaredSize(raw) == size
  {
    var header := Header(kind, sequence, size);
    if raw[..HEADER_SIZE] == header {
      assert forall i | 0 <= i < HEADER_SIZE :: raw[i] == header[i];
      assert raw[..4] == header[..4] == MAGIC;
    }
    if HeaderOk(raw) && KindAt(raw[5]) == kind && DeclaredSequence(raw) == sequence && DeclaredSize(raw) == size {
      KindCodeInverse(raw[5]);
      assert raw[6] == sequence / 256 && raw[7] == sequence % 256;
      assert raw[8] == 0 && raw[9] == 0 && raw[10] == size / 256 && raw[11] == size % 256;
      assert raw[..HEADER_SIZE] == raw[..4] + raw[4..HEADER_SIZE];
    }
  }

  lemma FrameParts(binding: Binding, m: Message)
    requires ValidMessage(m)
    ensures var raw := Encode(binding, m);
            && raw[..HEADER_SIZE] == Header(m.kind, m.sequence, BINDING_SIZE + |m.payload|)
            && raw[HEADER_SIZE..HEADER_SIZE + BINDING_SIZE] == binding
            && raw[HEADER_SIZE + BINDING_SIZE..] == m.payload
  {
  }

  /** Encoding and decoding are mutual inverses: a frame is accepted as `m` exactly when it is
      the one encoding of the well-formed message `m`. */
  lemma CodecExact(binding: Binding, raw: seq<Byte>, m: Message)
    ensures Decode(binding, raw) == Ok(m) <==> ValidMessage(m) && raw == Encode(binding, m)
  {
    if ValidMessage(m) && raw == Encode(binding, m) {
      FrameParts(binding, m);
      HeaderExact(raw, m.kind, m.sequence, BINDING_SIZE + |m.payload|);
    }
    if Decode(binding, raw) == Ok(m) {
      HeaderExact(raw, m.kind, m.sequence, BINDING_SIZE + |m.payload|);
      SplitFrame(raw);
    }
  }

  lemma SplitFrame(raw: seq<Byte>)
    requires HEADER_SIZE + BINDING_SIZE <= |raw|
    ensures raw == raw[..HEADER_SIZE] + (raw[HEADER_SIZE..HEADER_SIZE + BINDING_SIZE] + raw[HEADER_SIZE + BINDING_SIZE..])
  {
  }

  /** A frame bound to another invocation is refused for exactly that reason. */
  lemma ForeignFrameRefused(binding: Binding, other: Binding, m: Message)
    requires ValidMessage(m) && other != binding
    ensures Decode(other, Encode(binding, m)) == Err(BindingMismatch)
  {
    FrameParts(binding, m);
    HeaderExact(Encode(binding, m), m.kind, m.sequence, BINDING_SIZE + |m.payload|);
  }

  // ----- the incremental stream decoder -----

  /** What the decoder holds after some prefix of the stream. */
  datatype Scan =
    | Scan(buffer: seq<Byte>, delivered: seq<Message>)
    | Broken(delivered: seq<Message>, reason: Reason)

  const START := Scan([], [])

  function Push(binding: Binding, s: Scan, b: Byte): Scan {
    if s.Broken? then s
    else if MAX_FRAME <= |s.buffer| then Broken(s.delivered, ProtocolInvalid)
    else
      var buffer := s.buffer + [b];
      if |buffer| < HEADER_SIZE then Scan(buffer, s.delivered)
      else if !HeaderOk(buffer) then Broken(s.delivered, ProtocolInvalid)
      else if |buffer| != HEADER_SIZE + DeclaredSize(buffer) then Scan(buffer, s.delivered)
      else if MAX_MESSAGES <= |s.delivered| then Broken(s.delivered, ProtocolInvalid)
      else
        match Decode(binding, buffer)
        case Ok(m) => Scan([], s.delivered + [m])
        case Err(reason) => Broken(s.delivered, reason)
  }

  function PushAll(binding: Binding, s: Scan, bs: seq<Byte>): Scan {
    if bs == [] then s else Push(binding, PushAll(binding, s, bs[..|bs| - 1]), bs[|bs| - 1])
  }

  lemma {:induction false} PushAllSplits(binding: Binding, s: Scan, a: seq<Byte>, b: seq<Byte>)
    ensures PushAll(binding, s, a + b) == PushAll(binding, PushAll(binding, s, a), b)
    decreases |b|
  {
    if b == [] {
      assert a + b == a;
    } else {
      var front := b[..|b| - 1];
      assert (a + b)[..|a + b| - 1] == a + front;
      PushAllSplits(binding, s, a, front);
    }
  }

  /** Bytes that could still become one frame: everything the decoder may hold back. */
  predicate PartialFrame(tail: seq<Byte>) {
    |tail| < HEADER_SIZE || (HeaderOk(tail) && |tail| < HEADER_SIZE + DeclaredSize(tail))
  }

  predicate AllValid(ms: seq<Message>) { forall m | m in ms :: ValidMessage(m) }

  function EncodeAll(binding: Binding, ms: seq<Message>): seq<Byte>
    requires AllValid(ms)
  {
    if ms == [] then [] else EncodeAll(binding, ms[..|ms| - 1]) + Encode(binding, ms[|ms| - 1])
  }

  /** The stream read as whole frames followed by an unfinished one, with no mention of the scanner. */
  predicate Framed(binding: Binding, bs: seq<Byte>, ms: seq<Message>, tail: seq<Byte>) {
    && AllValid(ms) && |ms| <= MAX_MESSAGES && PartialFrame(tail)
    && bs == EncodeAll(binding, ms) + tail
  }

  lemma HeaderDependsOnPrefix(a: seq<Byte>, b: seq<Byte>)
    requires HEADER_SIZE <= |a| && a <= b
    ensures HeaderOk(a) == HeaderOk(b) && DeclaredSize(a) == DeclaredSize(b)
  {
    assert a[..4] == b[..4];
  }

  /** Soundness: whatever an unbroken scan delivered and buffered re-encodes to its input. */
  lemma {:induction false} ScanSound(binding: Binding, bs: seq<Byte>)
    ensures var s := PushAll(binding, START, bs);
            s.Scan? ==> Framed(binding, bs, s.delivered, s.buffer)
  {
    if bs != [] {
      var front, b := bs[..|bs| - 1], bs[|bs| - 1];
      ScanSound(binding, front);
      var before := PushAll(binding, START, front);
      if before.Scan? {
        assert bs == front + [b];
        PushSound(binding, front, before.delivered, before.buffer, b);
      }
    }
  }

  lemma PushSound(binding: Binding, bs: seq<Byte>, ms: seq<Message>, tail: seq<Byte>, b: Byte)
    requires Framed(binding, bs, ms, tail)
    ensures var s := Push(binding, Scan(tail, ms), b);
            s.Scan? ==> Framed(binding, bs + [b], s.delivered, s.buffer)
  {
    hide Encode, Decode, ValidMessage;
    var grown := tail + [b];
    assert bs + [b] == EncodeAll(binding, ms) + grown;
    match Push(binding, Scan(tail, ms), b)
    case Broken(_, _) =>
    case Scan(held, all) =>
      if all != ms {
        var m := all[|ms|];
        CodecExact(binding, grown, m);
        assert all == ms + [m] && all[..|all| - 1] == ms;
        assert EncodeAll(binding, all) + [] == EncodeAll(binding, ms) + grown;
      }
  }

  lemma {:induction false} PartialFrameIsHeld(binding: Binding, delivered: seq<Message>, tail: seq<Byte>)
    requires PartialFrame(tail)
    ensures PushAll(binding, Scan([], delivered), tail) == Scan(tail, delivered)
    decreases |tail|
  {
    if tail != [] {
      var front := tail[..|tail| - 1];
      if HEADER_SIZE <= |front| {
        HeaderDependsOnPrefix(front, tail);
      }
      PartialFrameIsHeld(binding, delivered, front);
      assert front + [tail[|tail| - 1]] == tail;
    }
  }

  lemma WholeFrameIsDelivered(binding: Binding, delivered: seq<Message>, m: Message)
    requires ValidMessage(m) && |delivered| < MAX_MESSAGES
    ensures PushAll(binding, Scan([], delivered), Encode(binding, m)) == Scan([], delivered + [m])
  {
    hide Encode, Decode, PartialFrame, HeaderOk, DeclaredSize, ValidMessage, Push;
    var raw := Encode(binding, m);
    var front := raw[..|raw| - 1];
    AlmostWhole(binding, m);
    PartialFrameIsHeld(binding, delivered, front);
    LastByte(binding, delivered, m);
  }

  /** An encoding without its last byte is an unfinished frame. */
  lemma AlmostWhole(binding: Binding, m: Message)
    requires ValidMessage(m)
    ensures var raw := Encode(binding, m); raw != [] && PartialFrame(raw[..|raw| - 1])
  {
    var raw := Encode(binding, m);
    CodecExact(binding, raw, m);
    HeaderDependsOnPrefix(raw[..|raw| - 1], raw);
  }

  lemma LastByte(binding: Binding, delivered: seq<Message>, m: Message)
    requires ValidMessage(m) && |delivered| < MAX_MESSAGES
    ensures var raw := Encode(binding, m);
            raw != [] && Push(binding, Scan(raw[..|raw| - 1], delivered), raw[|raw| - 1]) == Scan([], delivered + [m])
  {
    hide HeaderOk, DeclaredSize, MakeMessage, Encode, ValidMessage;
    var raw := Encode(binding, m);
    CodecExact(binding, raw, m);
    assert raw[..|raw| - 1] + [raw[|raw| - 1]] == raw;
  }

  lemma {:induction false} ScanComplete(binding: Binding, ms: seq<Message>)
    requires AllValid(ms) && |ms| <= MAX_MESSAGES
    ensures PushAll(binding, START, EncodeAll(binding, ms)) == Scan([], ms)
  {
    hide Push, Encode, ValidMessage;
    if ms != [] {
      var front, m := ms[..|ms| - 1], ms[|ms| - 1];
      ScanComplete(binding, front);
      PushAllSplits(binding, START, EncodeAll(binding, front), Encode(binding, m));
      WholeFrameIsDelivered(binding, front, m);
      assert front + [m] == ms;
    }
  }

  /** The scanner is exact: it stands at (`ms`, `tail`) after `bs` if and only if `bs` is the
      encoding of `ms` followed by the unfinished frame `tail`.  So there is at most one way to
      read a stream, and it breaks exactly when there is none. */
  lemma ScanExact(binding: Binding, bs: seq<Byte>, ms: seq<Message>, tail: seq<Byte>)
    ensures PushAll(binding, START, bs) == Scan(tail, ms) <==> Framed(binding, bs, ms, tail)
  {
    ScanSound(binding, bs);
    if Framed(binding, bs, ms, tail) {
      ScanComplete(binding, ms);
      PushAllSplits(binding, START, EncodeAll(binding, ms), tail);
      PartialFrameIsHeld(binding, ms, tail);
    }
  }

  /** The held-back bytes are a strict prefix of one frame, so the MAX_FRAME guard inside the
      loop decides nothing. */
  lemma BufferGuardNeverFires(binding: Binding, bs: seq<Byte>)
    ensures var s := PushAll(binding, START, bs); s.Scan? ==> |s.buffer| < MAX_FRAME
  {
    ScanSound(binding, bs);
  }

  /** Failure is sticky and loses nothing already decoded: a longer stream only extends what a
      shorter one delivered. */
  lemma {:induction false} DeliveryOnlyGrows(binding: Binding, s: Scan, bs: seq<Byte>)
    ensures s.delivered <= PushAll(binding, s, bs).delivered
    ensures s.Broken? ==> PushAll(binding, s, bs) == s
  {
    if bs != [] {
      DeliveryOnlyGrows(binding, s, bs[..|bs| - 1]);
    }
  }

  /** Where byte `i` of a chunk sits in the fold over the whole stream. */
  lemma PushAllStep(binding: Binding, before: seq<Byte>, chunk: seq<Byte>, i: nat)
    requires i < |chunk|
    ensures PushAll(binding, START, before + chunk[..i + 1])
         == Push(binding, PushAll(binding, START, before + chunk[..i]), chunk[i])
    ensures PushAll(binding, START, before + chunk)
         == PushAll(binding, PushAll(binding, START, before + chunk[..i + 1]), chunk[i + 1..])
  {
    hide Push;
    var next := before + chunk[..i + 1];
    assert next[..|next| - 1] == before + chunk[..i];
    assert next + chunk[i + 1..] == before + chunk;
    PushAllSplits(binding, START, next, chunk[i + 1..]);
  }

  class StreamDecoder {
    const binding: Binding
    var buffer: seq<Byte>
    var failed: bool
    var finished: bool
    var frames: nat
    ghost var consumed: seq<Byte>        // bytes of every call that returned
    ghost var delivered: seq<Message>    // messages of every call that returned

    ghost predicate Valid()
      reads this
    {
      && (failed ==> buffer == [])
      && (!failed ==> PushAll(binding, START, consumed) == Scan(buffer, delivered) && frames == |delivered|)
      && delivered <= PushAll(binding, START, consumed).delivered
    }

    constructor (codec: Binding)
      ensures Valid() && !failed && !finished && consumed == [] && delivered == []
      ensures binding == codec
    {
      binding := codec;
      buffer, failed, finished, frames := [], false, false, 0;
      consumed, delivered := [], [];
    }

    /** One byte of the loop in `Feed`; `sofar` is what the stream has delivered up to here. */
    method Absorb(b: Byte, ghost sofar: seq<Message>) returns (r: Result<seq<Message>, Reason>)
      requires frames == |sofar|
      modifies this`buffer, this`frames
      ensures match Push(binding, Scan(old(buffer), sofar), b)
              case Scan(held, all) => r.Ok? && buffer == held && all == sofar + r.value && frames == |all|
              case Broken(_, reason) => r == Err(reason)
    {
      if MAX_FRAME <= |buffer| {
        return Err(ProtocolInvalid);
      }
      buffer := buffer + [b];
      if HEADER_SIZE <= |buffer| {
        if !HeaderOk(buffer) {
          return Err(ProtocolInvalid);
        }
        if |buffer| == HEADER_SIZE + DeclaredSize(buffer) {
          frames := frames + 1;
          if MAX_MESSAGES < frames {
            return Err(ProtocolInvalid);
          }
          match Decode(binding, buffer) {
            case Err(reason) =>
              return Err(reason);
            case Ok(m) =>
              buffer := [];
              return Ok([m]);
          }
        }
      }
      assert sofar + [] == sofar;
      return Ok([]);
    }

    /** One chunk.  Refused chunks poison the decoder and deliver nothing. */
    method Feed(chunk: seq<Byte>) returns (r: Result<seq<Message>, Reason>)
      requires Valid()
      modifies this
      ensures Valid() && finished == old(finished)
      ensures failed == r.Err?
      ensures r.Ok? <==> !old(failed) && !old(finished) && |chunk| <= MAX_FRAME
                         && PushAll(binding, START, old(consumed) + chunk).Scan?
      ensures r.Ok? ==> consumed == old(consumed) + chunk && delivered == old(delivered) + r.value
      ensures r.Err? ==> consumed == old(consumed) && delivered == old(delivered)
      ensures r.Ok? ==> Framed(binding, consumed, delivered, buffer)
    {
      hide Push, Framed;
      var result: seq<Message> := [];
      if failed || finished || MAX_FRAME < |chunk| {
        failed, buffer := true, [];
        return Err(ProtocolInvalid);
      }
      var i := 0;
      assert consumed + chunk[..0] == consumed && delivered + [] == delivered;
      while i < |chunk|
        invariant 0 <= i <= |chunk| && !failed && !finished
        invariant PushAll(binding, START, consumed + chunk[..i]) == Scan(buffer, delivered + result)
        invariant frames == |delivered + result|
        invariant consumed == old(consumed) && delivered == old(delivered)
      {
        PushAllStep(binding, consumed, chunk, i);
        var step := Absorb(chunk[i], delivered + result);
        match step {
          case Err(reason) =>
            DeliveryOnlyGrows(binding, PushAll(binding, START, consumed + chunk[..i + 1]), chunk[i + 1..]);
            failed, buffer := true, [];
            return Err(reason);
          case Ok(ms) =>
            assert (delivered + result) + ms == delivered + (result + ms);
            result := result + ms;
        }
        i := i + 1;
      }
      assert chunk[..i] == chunk;
      consumed, delivered := consumed + chunk, delivered + result;
      ScanSound(binding, consumed);
      return Ok(result);
    }

    /** End of stream: clean exactly when no frame is left unfinished. */
    method Finish() returns (ok: bool)
      requires Valid()
      modifies this
      ensures Valid() && consumed == old(consumed) && delivered == old(delivered)
      ensures ok <==> !old(failed) && AllValid(delivered) && consumed == EncodeAll(binding, delivered)
      ensures finished == (old(finished) || ok) && failed == !ok
    {
      ScanSound(binding, consumed);
      if failed || buffer != [] {
        if !failed {
          assert |consumed| > |EncodeAll(binding, delivered)|;
        }
        failed, buffer := true, [];
        return false;
      }
      finished := true;
      return true;
    }
  }
}
