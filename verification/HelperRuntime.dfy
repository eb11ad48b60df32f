/**
The standalone helper: it validates what it was handed, walks the four phases, polls the child
and emits one frame per fact, then cleans up and closes with either a completion or an error.
*/
module HelperRuntime {
  import opened Base
  import opened HelperProtocol
  import opened HelperKernel
  import opened HelperCleanup
  import opened HelperTranscript

  const MAX_POLLS := MAX_MESSAGES - 16

  /** The bytes of one stream in a list of chunks. */
  function Joined(chunks: seq<(Stream, seq<Byte>)>, s: Stream): seq<Byte> {
    if chunks == [] then []
    else
      var last := chunks[|chunks| - 1];
      Joined(chunks[..|chunks| - 1], s) + (if last.0 == s then last.1 else [])
  }

  lemma {:induction false} JoinedSplits(a: seq<(Stream, seq<Byte>)>, b: seq<(Stream, seq<Byte>)>, s: Stream)
    ensures Joined(a + b, s) == Joined(a, s) + Joined(b, s)
    decreases |b|
  {
    if b == [] {
      assert a + b == a;
    } else {
      var front := b[..|b| - 1];
      assert (a + b)[..|a + b| - 1] == a + front;
      JoinedSplits(a, front, s);
    }
  }

  /** All chunks of a list of polls, oldest first. */
  function Chunks(polls: seq<Poll>): seq<(Stream, seq<Byte>)> {
    if polls == [] then [] else Chunks(polls[..|polls| - 1]) + polls[|polls| - 1].chunks
  }

  function EofsOf(p: Poll): set<Stream> {
    (if p.outEof then {OutStream} else {}) + (if p.errEof then {ErrStream} else {})
  }

  /** The streams whose end some poll reported. */
  function EofAfter(polls: seq<Poll>): set<Stream> {
    if polls == [] then {} else EofAfter(polls[..|polls| - 1]) + EofsOf(polls[|polls| - 1])
  }

  /** The exit status reported last. */
  function ExitOf(polls: seq<Poll>): Option<nat> {
    if polls == [] then None
    else if polls[|polls| - 1].exit.Some? then polls[|polls| - 1].exit
    else ExitOf(polls[..|polls| - 1])
  }

  predicate Done(polls: seq<Poll>) { EofAfter(polls) == BOTH && ExitOf(polls).Some? }

  /** One frame for each chunk and one for each end of file. */
  function FrameCount(polls: seq<Poll>): nat { |Chunks(polls)| + |EofAfter(polls)| }

  /** Bytes of a stream in a list of chunks. */
  function Size(chunks: seq<(Stream, seq<Byte>)>, s: Stream): nat { |Joined(chunks, s)| }

  lemma PollsGrow(polls: seq<Poll>, p: Poll)
    ensures EofAfter(polls + [p]) == EofAfter(polls) + EofsOf(p)
    ensures ExitOf(polls + [p]) == if p.exit.Some? then p.exit else ExitOf(polls)
    ensures Chunks(polls + [p]) == Chunks(polls) + p.chunks
  {
    assert (polls + [p])[..|polls|] == polls;
  }

  /** Some poll reports an exit, and every exit reported is zero. */
  predicate ExitsZero(polls: seq<Poll>) {
    && (exists p | p in polls :: p.exit.Some?)
    && (forall p | p in polls && p.exit.Some? :: p.exit == Some(0))
  }

  predicate Agree(polls: seq<Poll>) {
    forall j | 0 <= j < |polls| && polls[j].exit.Some? && ExitOf(polls[..j]).Some? :: polls[j].exit == ExitOf(polls[..j])
  }

  lemma AgreeGrows(polls: seq<Poll>)
    requires polls != []
    ensures var front, p := polls[..|polls| - 1], polls[|polls| - 1];
            Agree(polls) <==> Agree(front) && (p.exit.Some? && ExitOf(front).Some? ==> p.exit == ExitOf(front))
  {
    hide ExitOf;
    var front := polls[..|polls| - 1];
    assert forall i | 0 <= i < |front| :: front[i] == polls[i] && front[..i] == polls[..i];
  }

  /** What the status reported last says about all of them, when they agree. */
  lemma {:induction false} ExitSeen(polls: seq<Poll>)
    ensures ExitOf(polls).None? ==> forall p | p in polls :: p.exit.None?
    ensures ExitOf(polls).Some? ==> exists p | p in polls :: p.exit == ExitOf(polls)
    ensures Agree(polls) ==> forall p | p in polls && p.exit.Some? :: p.exit == ExitOf(polls)
  {
    hide Agree;
    if polls != [] {
      var front, p := polls[..|polls| - 1], polls[|polls| - 1];
      assert polls == front + [p] && p in polls;
      assert forall q :: q in polls <==> q in front || q == p;
      AgreeGrows(polls);
      ExitSeen(front);
    }
  }

  lemma {:induction false} SameExitsAgree(polls: seq<Poll>, e: Option<nat>)
    requires forall p | p in polls && p.exit.Some? :: p.exit == e
    ensures Agree(polls) && (ExitOf(polls).Some? ==> ExitOf(polls) == e)
  {
    hide Agree;
    if polls != [] {
      var front, p := polls[..|polls| - 1], polls[|polls| - 1];
      assert polls == front + [p] && p in polls;
      assert forall q | q in front :: q in polls;
      SameExitsAgree(front, e);
      AgreeGrows(polls);
    } else {
      NothingAgrees(polls);
    }
  }

  lemma NothingAgrees(polls: seq<Poll>)
    requires polls == []
    ensures Agree(polls)
  {
  }

  lemma ExitsExact(polls: seq<Poll>)
    ensures Agree(polls) && ExitOf(polls) == Some(0) <==> ExitsZero(polls)
    ensures ExitOf(polls).Some? <==> exists p | p in polls :: p.exit.Some?
  {
    hide Agree, ExitOf;
    ExitSeen(polls);
    if forall p | p in polls && p.exit.Some? :: p.exit == Some(0) {
      SameExitsAgree(polls, Some(0));
    }
  }

  /** One frame for an end of file that was not reported before. */
  function News(ended: set<Stream>, s: Stream, now: bool): nat { if now && s !in ended then 1 else 0 }

  lemma EofCount(ended: set<Stream>, p: Poll)
    ensures var first := ended + (if p.outEof then {OutStream} else {});
            && |ended + EofsOf(p)| == |ended| + News(ended, OutStream, p.outEof) + News(first, ErrStream, p.errEof)
            && ended + EofsOf(p) == first + (if p.errEof then {ErrStream} else {})
  {
    var first := ended + (if p.outEof then {OutStream} else {});
    assert ended + EofsOf(p) == first + (if p.errEof then {ErrStream} else {});
    OneMore(ended, OutStream, p.outEof);
    OneMore(first, ErrStream, p.errEof);
  }

  lemma OneMore(ended: set<Stream>, s: Stream, now: bool)
    ensures |ended + (if now then {s} else {})| == |ended| + News(ended, s, now)
  {
    if !now || s in ended {
      assert ended + (if now then {s} else {}) == ended;
    }
  }

  lemma NothingPolled()
    ensures Chunks([]) == [] && EofAfter([]) == {} && ExitOf([]).None?
    ensures FrameCount([]) == 0 && forall s :: Joined([], s) == []
  {
  }

  lemma JoinedOne(before: seq<(Stream, seq<Byte>)>, chunks: seq<(Stream, seq<Byte>)>, i: nat)
    requires i < |chunks|
    ensures forall s :: Joined(before + chunks[..i + 1], s) == Joined(before + chunks[..i], s) + (if chunks[i].0 == s then chunks[i].1 else [])
  {
    var longer := before + chunks[..i + 1];
    assert longer[..|longer| - 1] == before + chunks[..i];
    assert longer[|longer| - 1] == chunks[i];
  }

  const RUNNING := Proc(true, false, false)
  const FINISHED := Proc(false, false, false)

  lemma RegistersIfSecured(kernel: Kernel, n: nat, escrowed: bool)
    ensures kernel.SecureTrouble(n, escrowed).None? ==> kernel.Registers(n, escrowed)
  {
  }

  class Helper {
    const inv: Invocation
    const kernel: Kernel
    const channel: Channel
    const transferred: seq<Row>
    var last: Time
    var out: seq<Byte>
    var err: seq<Byte>
    var eof: set<Stream>

    constructor (inv: Invocation, kernel: Kernel, channel: Channel, transferred: seq<Row>)
      ensures this.inv == inv && this.kernel == kernel && this.channel == channel
      ensures this.transferred == transferred && out == err == [] && eof == {}
    {
      this.inv, this.kernel, this.channel, this.transferred := inv, kernel, channel, transferred;
      last, out, err, eof := inv.started, [], [], {};
    }

    ghost predicate Valid()
      reads this, kernel, channel
    {
      && WellFormed(inv) && inv.binding == channel.binding
      && kernel.Valid() && channel.Valid()
      && |out| <= inv.outCap && |err| <= inv.errCap
    }

    /** An untransformed log so far is accepted frame by frame, and the verifier stands here. */
    ghost predicate Heard(stage: nat, exited: bool)
      reads this, channel
    {
      Faithful(channel.transform) ==>
        && Hear(inv, channel.frames) == Ok(Transcript(|channel.frames|, stage, eof, out, err, exited, None, false, None))
        && !channel.closed
    }

    /** Accepted so far and still open to an error frame. */
    ghost predicate Open()
      reads this, channel
    {
      Faithful(channel.transform) ==>
        var h := Hear(inv, channel.frames);
        h.Ok? && !h.value.complete && h.value.error.None? && h.value.sequence == |channel.frames| && !channel.closed
    }

    // ----- small steps -----

    /** A kernel check that must pass, reported as `reason` when it does not. */
    method Check(reason: Reason) returns (r: Result<(), Trouble>)
      modifies kernel`tick
      ensures r == Told(kernel.Asked(old(kernel.tick), reason))
      ensures r.Ok? <==> kernel.CheckAt(old(kernel.tick)) == Ok(true)
      ensures kernel.tick == old(kernel.tick) + 1
    {
      var seen := kernel.Observe();
      return match seen
        case Err(trouble) => Err(trouble)
        case Ok(yes) => if yes then Ok(()) else Err(Violation(reason));
    }

    predicate InTime(now: Time) { now.mono <= inv.deadline && now.wall <= inv.started.wall + inv.timing.command }

    /** What a fence demands of its three questions: a clock that went back in neither measure and is
        inside the deadline and the command's time, a watched parent that is alive, no cancellation. */
    predicate Passes(before: Time, n: nat) {
      && kernel.ClockAt(n).Ok? && NotBefore(before, kernel.ClockAt(n).value) && InTime(kernel.ClockAt(n).value)
      && (exists row | row in transferred :: row.slot == ParentWatch)
      && kernel.CheckAt(n + 1) == Ok(true) && kernel.CheckAt(n + 2) == Ok(true)
    }

    /** What a fence at call `n` meets first. */
    function Fenced(before: Time, n: nat): Option<Trouble> {
      Then(kernel.env(n).early,
        Then(Unless(NotBefore(before, kernel.env(n).time), ClockRollback),
          Then(Unless(InTime(kernel.env(n).time), Timeout),
            Then(Unless(exists row | row in transferred :: row.slot == ParentWatch, ParentDied),
              Then(kernel.Asked(n + 1, ParentDied), kernel.Asked(n + 2, Killed))))))
    }

    /** Clock, deadline, parent and cancellation, before anything that depends on them. */
    method Fence() returns (r: Result<(), Trouble>)
      modifies this`last, kernel`tick, kernel`tally
      ensures r == Told(Fenced(old(last), old(kernel.tick)))
      ensures r.Ok? <==> Passes(old(last), old(kernel.tick))
      ensures r.Ok? ==> last == kernel.env(old(kernel.tick)).time && kernel.tick == old(kernel.tick) + 3
    {
      var now := kernel.ReadClock();
      if now.Err? {
        return Err(now.error);
      }
      if !NotBefore(last, now.value) {
        return Err(Violation(ClockRollback));
      }
      last := now.value;
      if !InTime(last) {
        return Err(Violation(Timeout));
      }
      if forall row | row in transferred :: row.slot != ParentWatch {
        return Err(Violation(ParentDied));
      }
      r := Check(ParentDied);
      if r.Ok? {
        r := Check(Killed);
      }
    }

    method Tell(kind: Kind, payload: seq<Byte>) returns (r: Result<(), Trouble>)
      requires channel.Valid() && inv.binding == channel.binding
      modifies channel`frames, channel`bytes, channel`sequence
      ensures channel.Valid()
      ensures r.Err? ==> channel.frames == old(channel.frames)
      ensures r.Ok? ==> |channel.frames| == |old(channel.frames)| + 1 <= MAX_MESSAGES
      ensures Faithful(channel.transform) && !channel.closed && PayloadOk(kind, payload) ==>
                r == Told(Unless(|old(channel.frames)| < MAX_MESSAGES, EvidenceInvalid))
      ensures var n, h := |old(channel.frames)|, Hear(inv, old(channel.frames));
              Faithful(channel.transform) && r.Ok? && h.Ok? ==>
                && ValidMessage(Message(kind, n, payload)) && |channel.frames| == n + 1
                && Hear(inv, channel.frames) == Step(inv, h.value, Message(kind, n, payload))
    {
      hide Hear, Step, Encode;
      ghost var before := channel.frames;
      r := channel.Send(kind, payload);
      if Faithful(channel.transform) && r.Ok? && Hear(inv, before).Ok? {
        HearOneMore(inv, before, Message(kind, |before|, payload));
      }
    }

    method Announce(phase: Kind, ghost stage: nat) returns (r: Result<(), Trouble>)
      requires Valid() && stage < 4 && phase == PhaseAt(stage) && Heard(stage, false)
      modifies channel`frames, channel`bytes, channel`sequence
      ensures channel.Valid() && Open()
      ensures r.Ok? ==> Heard(stage + 1, false) && |channel.frames| == |old(channel.frames)| + 1
      ensures r.Ok? || (Faithful(channel.transform) && |old(channel.frames)| < MAX_MESSAGES) ==> r == Ok(())
    {
      hide Hear;
      r := Tell(phase, inv.commit(phase));
      assert PayloadOk(phase, inv.commit(phase));
      assert r.Ok? ==> r.value == ();
    }

    // ----- before the child runs -----

    predicate RowsMatch(receipt: seq<Row>) {
      && |transferred| == 7 && (forall i | 0 <= i < 7 :: transferred[i].slot == SLOTS[i])
      && DistinctFds(transferred) && Fds(transferred) == Fds(receipt)
    }

    /** The first of `k` descriptor checks from call `n` on that fails. */
    function Described(n: nat, k: nat): Option<Trouble> {
      if k == 0 then None else Then(Described(n, k - 1), kernel.Asked(n + k - 1, FdTransferInvalid))
    }

    function InvokeTrouble(invoke: seq<Byte>): Option<Trouble> {
      match Decode(inv.binding, invoke)
      case Err(reason) => Some(Violation(reason))
      case Ok(message) => Unless(message == Message(Invoke, 0, inv.fdCatalog), BindingMismatch)
    }

    // What each phase meets first from call `n` on; nothing, when it succeeds.

    function BeginTrouble(before: Time, n: nat, invoke: seq<Byte>): Option<Trouble> {
      Then(kernel.env(n).early, Then(kernel.env(n).late, Then(Unless(RowsMatch(kernel.catalog), FdTransferInvalid),
        Then(InvokeTrouble(invoke), Then(Described(n + 1, 7), Then(Fenced(before, n + 8), kernel.Asked(n + 11, IdentityMismatch)))))))
    }

    function EnterTrouble(before: Time, n: nat): Option<Trouble> {
      Then(kernel.Asked(n, ExecutableMismatch), Then(kernel.Asked(n + 1, FdTransferInvalid),
        Then(Fenced(before, n + 2), kernel.Asked(n + 5, IdentityMismatch))))
    }

    function DropTrouble(n: nat): Option<Trouble> {
      Then(kernel.Asked(n, PrivilegeDropFailed), kernel.Asked(n + 1, CredentialDrift))
    }

    function SecureChildTrouble(before: Time, n: nat, escrowed: bool): Option<Trouble> {
      Then(kernel.Asked(n, FdTransferInvalid), Then(Fenced(before, n + 1), kernel.SecureTrouble(n + 4, escrowed)))
    }

    function LaunchTrouble(before: Time, n: nat, escrowed: bool): Option<Trouble> {
      Then(SecureChildTrouble(before, n, escrowed),
        Then(Fenced(kernel.env(n + 1).time, n + 7), Then(kernel.Asked(n + 10, Killed), kernel.Asked(n + 11, HelperCrashed))))
    }

    function ConcludeTrouble(before: Time, n: nat): Option<Trouble> {
      Then(Fenced(before, n), Then(kernel.Asked(n + 3, IdentityMismatch), kernel.Asked(n + 4, ExecutableMismatch)))
    }

    lemma DescribedStops(n: nat, i: nat, k: nat)
      requires i <= k && Described(n, i).Some?
      ensures Described(n, k) == Described(n, i)
      decreases k
    {
      if i < k {
        DescribedStops(n, i, k - 1);
      }
    }

    /** Claim the transfer, then distrust everything about it. */
    method Begin(invoke: seq<Byte>) returns (r: Result<(), Trouble>)
      requires Valid()
      modifies this`last, kernel`tick, kernel`tally, kernel`pins
      ensures kernel.Valid()
      ensures r == Told(BeginTrouble(old(last), old(kernel.tick), invoke))
      ensures r.Ok? ==> kernel.tick == old(kernel.tick) + 12 && last == kernel.env(old(kernel.tick) + 8).time
      ensures kernel.pins == if kernel.env(old(kernel.tick)).early.None? && old(kernel.pins).None?
                             then Some(kernel.PinsAt(old(kernel.tick))) else old(kernel.pins)
      ensures r.Ok? ==> kernel.pins.Some? && RowsMatch(kernel.catalog)
                        && Decode(inv.binding, invoke) == Ok(Message(Invoke, 0, inv.fdCatalog))
    {
      hide Decode, Kernel.ProcsOk, Fenced, Kernel.Asked, RowsMatch, Kernel.PinsAt, Described;
      var receipt := kernel.TransferReceipt();
      if receipt.Err? {
        return Err(receipt.error);
      }
      if !RowsMatch(receipt.value) {
        return Err(Violation(FdTransferInvalid));
      }
      var message := Decode(inv.binding, invoke);
      if message.Err? {
        return Err(Violation(message.error));
      }
      if !(message.value == Message(Invoke, 0, inv.fdCatalog)) {
        return Err(Violation(BindingMismatch));
      }
      r := Describe();
      if r.Err? { return; }
      r := Fence();
      if r.Err? { return; }
      r := Check(IdentityMismatch);
    }

    /** Each transferred descriptor is what the invocation says it is. */
    method Describe() returns (r: Result<(), Trouble>)
      modifies kernel`tick
      ensures r == Told(Described(old(kernel.tick), 7)) && (r.Ok? ==> kernel.tick == old(kernel.tick) + 7)
    {
      hide Kernel.Asked;
      var i := 0;
      while i < 7
        invariant 0 <= i <= 7 && kernel.tick == old(kernel.tick) + i && Described(old(kernel.tick), i).None?
      {
        r := Check(FdTransferInvalid);
        if r.Err? {
          DescribedStops(old(kernel.tick), i + 1, 7);
          return r;
        }
        i := i + 1;
      }
      return Ok(());
    }

    /** Executable, namespace, fence, identity: what `entered` rests on. */
    method EnterChecks() returns (r: Result<(), Trouble>)
      modifies this`last, kernel`tick, kernel`tally
      ensures r == Told(EnterTrouble(old(last), old(kernel.tick)))
      ensures r.Ok? ==> kernel.tick == old(kernel.tick) + 6 && last == kernel.env(old(kernel.tick) + 2).time
    {
      hide Fenced, Kernel.Asked;
      r := Check(ExecutableMismatch);
      if r.Err? { return; }
      r := Check(FdTransferInvalid);
      if r.Err? { return; }
      r := Fence();
      if r.Err? { return; }
      r := Check(IdentityMismatch);
    }

    /** Ready and entered, each announced only after its checks. */
    method Enter() returns (r: Result<(), Trouble>)
      requires Valid() && Heard(0, false) && |channel.frames| == 0
      modifies this`last, kernel`tick, kernel`tally, channel`frames, channel`bytes, channel`sequence
      ensures Valid() && Open()
      ensures r.Ok? ==> Heard(2, false) && |channel.frames| == 2
      ensures r.Ok? || Faithful(channel.transform) ==> r == Told(EnterTrouble(old(last), old(kernel.tick)))
      ensures r.Ok? ==> kernel.tick == old(kernel.tick) + 6 && last == kernel.env(old(kernel.tick) + 2).time
    {
      hide Hear, WellFormed, Kernel.ProcsOk, Kernel.FdsOk, EnterTrouble;
      r := Announce(Ready, 0);
      if r.Err? { return; }
      r := EnterChecks();
      if r.Err? { return; }
      r := Announce(Entered, 1);
    }

    method DropChecks() returns (r: Result<(), Trouble>)
      modifies kernel`tick
      ensures r == Told(DropTrouble(old(kernel.tick)))
      ensures r.Ok? ==> kernel.tick == old(kernel.tick) + 2
    {
      hide Kernel.Asked;
      r := Check(PrivilegeDropFailed);
      if r.Err? { return; }
      r := Check(CredentialDrift);
    }

    /** Give up privileges, look again, and only then say so. */
    method DropCredentials() returns (r: Result<(), Trouble>)
      requires Valid() && Heard(2, false) && |channel.frames| == 2
      modifies kernel`tick, channel`frames, channel`bytes, channel`sequence
      ensures Valid() && Open()
      ensures r.Ok? ==> Heard(3, false) && |channel.frames| == 3
      ensures r.Ok? || Faithful(channel.transform) ==> r == Told(DropTrouble(old(kernel.tick)))
      ensures r.Ok? ==> kernel.tick == old(kernel.tick) + 2
    {
      hide Hear, WellFormed, Kernel.ProcsOk, Kernel.FdsOk, DropTrouble;
      r := DropChecks();
      if r.Err? { return; }
      r := Announce(Credentials, 2);
    }

    /** Descriptors, fence, and the child secured. */
    method SecureChild() returns (r: Result<(), Trouble>)
      requires kernel.Valid()
      modifies this`last, kernel`tick, kernel`tally, kernel`escrow, kernel`objects
      ensures kernel.Valid() && kernel.objects.Keys >= old(kernel.objects.Keys)
      ensures kernel.objects - {ChildRole} == old(kernel.objects) - {ChildRole}
      ensures r == Told(SecureChildTrouble(old(last), old(kernel.tick), ChildRole in old(kernel.escrow)))
      ensures r.Ok? ==> kernel.objects == old(kernel.objects)[ChildRole := RUNNING]
      ensures r.Ok? ==> kernel.tick == old(kernel.tick) + 7 && last == kernel.env(old(kernel.tick) + 1).time
    {
      hide Fenced, Kernel.Asked, Kernel.SecureTrouble, Kernel.ProcsOk, Kernel.FdsOk, Kernel.Registers;
      RegistersIfSecured(kernel, kernel.tick + 4, ChildRole in kernel.escrow);
      r := Check(FdTransferInvalid);
      if r.Err? { return; }
      r := Fence();
      if r.Err? { return; }
      r := kernel.Secure(ChildRole);
    }

    /** The last fence, the dispatch commit and the exec. */
    method LaunchChecks() returns (r: Result<(), Trouble>)
      requires kernel.Valid()
      modifies this`last, kernel`tick, kernel`tally, kernel`escrow, kernel`objects
      ensures kernel.Valid() && kernel.objects.Keys >= old(kernel.objects.Keys)
      ensures kernel.objects - {ChildRole} == old(kernel.objects) - {ChildRole}
      ensures r == Told(LaunchTrouble(old(last), old(kernel.tick), ChildRole in old(kernel.escrow)))
      ensures r.Ok? ==> kernel.objects == old(kernel.objects)[ChildRole := RUNNING]
      ensures r.Ok? ==> kernel.tick == old(kernel.tick) + 12 && last == kernel.env(old(kernel.tick) + 7).time
    {
      hide Fenced, Kernel.Asked, SecureChildTrouble, Kernel.ProcsOk, Kernel.FdsOk;
      r := SecureChild();
      if r.Err? { return; }
      r := Fence();
      if r.Err? { return; }
      r := Check(Killed);              // the dispatch commit, refused once the channel is cancelled
      if r.Err? { return; }
      r := Check(HelperCrashed);       // the exec itself
    }

    /** Secure the child, pass the last fence, commit the dispatch, announce it. */
    method Launch() returns (r: Result<(), Trouble>)
      requires Valid() && Heard(3, false) && |channel.frames| == 3
      modifies this`last, kernel`tick, kernel`tally, kernel`escrow, kernel`objects
      modifies channel`frames, channel`bytes, channel`sequence
      ensures Valid() && Open() && kernel.objects.Keys >= old(kernel.objects.Keys)
      ensures kernel.objects - {ChildRole} == old(kernel.objects) - {ChildRole}
      ensures r.Ok? ==> Heard(4, false) && |channel.frames| == 4 && kernel.objects == old(kernel.objects)[ChildRole := RUNNING]
      ensures r.Ok? || Faithful(channel.transform) ==>
                r == Told(LaunchTrouble(old(last), old(kernel.tick), ChildRole in old(kernel.escrow)))
      ensures r.Ok? ==> kernel.tick == old(kernel.tick) + 12 && last == kernel.env(old(kernel.tick) + 7).time
    {
      hide Hear, WellFormed, Kernel.ProcsOk, Kernel.FdsOk, LaunchTrouble;
      r := LaunchChecks();
      if r.Err? { return; }
      r := Announce(Exec, 3);
    }

    // ----- polling -----

    /** What polls at seven calls a round, from call `n` on, report; each round is a fence, the poll and a
        second fence. */
    function PollsAt(n: nat, k: nat): (polls: seq<Poll>)
      ensures |polls| == k
    {
      seq(k, i requires 0 <= i => kernel.env(n + 7 * i + 3).poll)
    }

    /** The latest clock reading before round `i`. */
    function LastAt(before: Time, n: nat, i: nat): Time { if i == 0 then before else kernel.env(n + 7 * i - 3).time }

    function ChunkTrouble(ended: set<Stream>, o: nat, e: nat, sent: nat, s: Stream, size: nat): Option<Trouble> {
      Then(Unless(s !in ended, SequenceInvalid),
        Then(Unless((if s == OutStream then o else e) + size <= Cap(inv, s), if s == OutStream then StdoutLimit else StderrLimit),
          Then(Unless(o + e + size <= MAX_AGGREGATE, AggregateLimit), Unless(sent < MAX_MESSAGES, EvidenceInvalid))))
    }

    /** The first of `j` chunks that is not taken after the polls seen so far: its stream has ended, it exceeds
        a limit, or there is no room for its frame. */
    function ChunksTrouble(seen: seq<Poll>, chunks: seq<(Stream, seq<Byte>)>, j: nat): Option<Trouble>
      requires j <= |chunks|
    {
      if j == 0 then None
      else
        var all := Chunks(seen) + chunks[..j - 1];
        Then(ChunksTrouble(seen, chunks, j - 1),
          ChunkTrouble(EofAfter(seen), Size(all, OutStream), Size(all, ErrStream), 4 + |all| + |EofAfter(seen)|,
                       chunks[j - 1].0, |chunks[j - 1].1|))
    }

    function TakeTrouble(seen: seq<Poll>, p: Poll): Option<Trouble> {
      Then(ChunksTrouble(seen, p.chunks, |p.chunks|), Unless(4 + FrameCount(seen + [p]) <= MAX_MESSAGES, EvidenceInvalid))
    }

    function AskTrouble(before: Time, n: nat): Option<Trouble> {
      var p := kernel.env(n + 3).poll;
      Then(Fenced(before, n), Then(kernel.env(n + 3).early, Then(Unless(ValidPoll(p), ProtocolInvalid),
        Then(Fenced(kernel.env(n).time, n + 4), Unless(p.alive, HelperCrashed)))))
    }

    /** What round `i` meets first. */
    function RoundTrouble(before: Time, n: nat, i: nat): Option<Trouble> {
      var seen, p := PollsAt(n, i), kernel.env(n + 7 * i + 3).poll;
      Then(AskTrouble(LastAt(before, n, i), n + 7 * i), Then(TakeTrouble(seen, p),
        Unless(p.exit.Some? && ExitOf(seen).Some? ==> p.exit == ExitOf(seen), SequenceInvalid)))
    }

    /** What polling meets first from round `i` on. */
    function PollTrouble(before: Time, n: nat, i: nat): Option<Trouble>
      decreases MAX_POLLS - i
    {
      var seen := PollsAt(n, i);
      if i < MAX_POLLS && !Done(seen) then Then(RoundTrouble(before, n, i), PollTrouble(before, n, i + 1))
      else Unless(Done(seen) && ExitOf(seen) == Some(0), IncompleteOutput)
    }

    /** The number of rounds made. */
    function RoundsFrom(n: nat, i: nat): nat
      decreases MAX_POLLS - i
    {
      if i < MAX_POLLS && !Done(PollsAt(n, i)) then RoundsFrom(n, i + 1) else i
    }

    method TakeChunk(s: Stream, data: seq<Byte>) returns (r: Result<(), Trouble>)
      requires Valid() && Heard(4, false) && 0 < |data| <= CHUNK
      modifies this`out, this`err, channel`frames, channel`bytes, channel`sequence
      ensures channel.Valid() && Open() && |out| <= inv.outCap && |err| <= inv.errCap
      ensures r.Ok? || Faithful(channel.transform) ==>
                r == Told(ChunkTrouble(eof, |old(out)|, |old(err)|, |old(channel.frames)|, s, |data|))
      ensures r.Ok? ==> Heard(4, false) && |channel.frames| == |old(channel.frames)| + 1
      ensures r.Ok? ==> out == old(out) + (if s == OutStream then data else [])
      ensures r.Ok? ==> err == old(err) + (if s == ErrStream then data else [])
    {
      hide Hear;
      if s in eof {
        return Err(Violation(SequenceInvalid));
      }
      if |if s == OutStream then out else err| + |data| > Cap(inv, s) {
        return Err(Violation(if s == OutStream then StdoutLimit else StderrLimit));
      }
      if |out| + |err| + |data| > MAX_AGGREGATE {
        return Err(Violation(AggregateLimit));
      }
      if s == OutStream {
        out := out + data;
      } else {
        err := err + data;
      }
      r := Tell(if s == OutStream then Stdout else Stderr, data);
      assert r.Ok? ==> r.value == ();
    }

    method TakeEof(s: Stream) returns (r: Result<(), Trouble>)
      requires Valid() && Heard(4, false) && s !in eof
      modifies this`eof, channel`frames, channel`bytes, channel`sequence
      ensures channel.Valid() && Open() && eof == old(eof) + {s}
      ensures r.Ok? || Faithful(channel.transform) ==> r == Told(Unless(|old(channel.frames)| < MAX_MESSAGES, EvidenceInvalid))
      ensures r.Ok? ==> Heard(4, false) && |channel.frames| == |old(channel.frames)| + 1
    {
      hide Hear;
      eof := eof + {s};
      r := Tell(if s == OutStream then StdoutEof else StderrEof, []);
      assert r.Ok? ==> r.value == ();
    }

    /** The fields hold exactly what these polls reported. */
    ghost predicate Holds(seen: seq<Poll>)
      reads this, channel
    {
      && out == Joined(Chunks(seen), OutStream) && err == Joined(Chunks(seen), ErrStream)
      && eof == EofAfter(seen) && |channel.frames| == 4 + FrameCount(seen)
    }

    lemma ChunksStop(seen: seq<Poll>, chunks: seq<(Stream, seq<Byte>)>, j: nat, k: nat)
      requires j <= k <= |chunks| && ChunksTrouble(seen, chunks, j).Some?
      ensures ChunksTrouble(seen, chunks, k) == ChunksTrouble(seen, chunks, j)
      decreases k
    {
      if j < k {
        ChunksStop(seen, chunks, j, k - 1);
      }
    }

    method TakeChunks(chunks: seq<(Stream, seq<Byte>)>, ghost seen: seq<Poll>) returns (r: Result<(), Trouble>)
      requires Valid() && Heard(4, false) && Holds(seen) && forall c | c in chunks :: 0 < |c.1| <= CHUNK
      modifies this`out, this`err, channel`frames, channel`bytes, channel`sequence
      ensures channel.Valid() && Open() && |out| <= inv.outCap && |err| <= inv.errCap
      ensures r.Ok? || Faithful(channel.transform) ==> r == Told(ChunksTrouble(seen, chunks, |chunks|))
      ensures r.Ok? ==> Heard(4, false) && |channel.frames| == |old(channel.frames)| + |chunks|
      ensures r.Ok? ==> out == Joined(Chunks(seen) + chunks, OutStream) && err == Joined(Chunks(seen) + chunks, ErrStream)
    {
      hide Hear, WellFormed, Kernel.ProcsOk, Kernel.FdsOk, ChunkTrouble, Joined, Chunks, EofAfter;
      var i := 0;
      assert Chunks(seen) + chunks[..0] == Chunks(seen);
      while i < |chunks|
        invariant 0 <= i <= |chunks| && Valid() && Heard(4, false) && Open()
        invariant out == Joined(Chunks(seen) + chunks[..i], OutStream) && err == Joined(Chunks(seen) + chunks[..i], ErrStream)
        invariant |channel.frames| == |old(channel.frames)| + i && ChunksTrouble(seen, chunks, i).None?
      {
        JoinedOne(Chunks(seen), chunks, i);
        r := TakeChunk(chunks[i].0, chunks[i].1);
        if r.Err? {
          if Faithful(channel.transform) {
            ChunksStop(seen, chunks, i + 1, |chunks|);
          }
          return;
        }
        i := i + 1;
      }
      assert chunks[..i] == chunks;
      return Ok(());
    }

    /** The end of one stream, if it was reported and is news. */
    method TakeNews(s: Stream, ended: bool) returns (r: Result<(), Trouble>)
      requires Valid() && Heard(4, false)
      modifies this`eof, channel`frames, channel`bytes, channel`sequence
      ensures channel.Valid() && Open()
      ensures r.Ok? || Faithful(channel.transform) ==>
                r == Told(Unless(|old(channel.frames)| + News(old(eof), s, ended) <= MAX_MESSAGES, EvidenceInvalid))
      ensures r.Ok? ==> Heard(4, false) && eof == old(eof) + (if ended then {s} else {})
                        && |channel.frames| == |old(channel.frames)| + News(old(eof), s, ended)
    {
      hide Hear, WellFormed, Kernel.ProcsOk, Kernel.FdsOk;
      if ended && s !in eof {
        r := TakeEof(s);
      } else {
        assert ended ==> eof + {s} == eof;
        return Ok(());
      }
    }

    method TakeEofs(poll: Poll) returns (r: Result<(), Trouble>)
      requires Valid() && Heard(4, false)
      modifies this`eof, channel`frames, channel`bytes, channel`sequence
      ensures channel.Valid() && Open()
      ensures r.Ok? || Faithful(channel.transform) ==>
                r == Told(Unless(|old(channel.frames)| + |old(eof) + EofsOf(poll)| - |old(eof)| <= MAX_MESSAGES, EvidenceInvalid))
      ensures r.Ok? ==> Heard(4, false) && eof == old(eof) + EofsOf(poll)
                        && |channel.frames| == |old(channel.frames)| + |eof| - |old(eof)|
    {
      hide Hear, WellFormed, Kernel.ProcsOk, Kernel.FdsOk;
      EofCount(eof, poll);
      r := TakeNews(OutStream, poll.outEof);
      if r.Err? { return; }
      r := TakeNews(ErrStream, poll.errEof);
    }

    /** Everything one poll reports: chunks first, then ends of file. */
    method TakePoll(poll: Poll, ghost seen: seq<Poll>) returns (r: Result<(), Trouble>)
      requires Valid() && Heard(4, false) && Holds(seen) && ValidPoll(poll)
      modifies this`out, this`err, this`eof, channel`frames, channel`bytes, channel`sequence
      ensures channel.Valid() && Open() && |out| <= inv.outCap && |err| <= inv.errCap
      ensures r.Ok? || Faithful(channel.transform) ==> r == Told(TakeTrouble(seen, poll))
      ensures r.Ok? ==> Heard(4, false) && Holds(seen + [poll])
    {
      hide Hear, Joined, WellFormed, Kernel.ProcsOk, Kernel.FdsOk, ChunksTrouble, Chunks, EofAfter, ExitOf, EofsOf;
      PollsGrow(seen, poll);
      r := TakeChunks(poll.chunks, seen);
      if r.Err? { return; }
      r := TakeEofs(poll);
    }

    /** Fence, poll, fence, and the helper is still alive. */
    method AskChild() returns (r: Result<Poll, Trouble>)
      requires kernel.Valid() && ChildRole in kernel.objects && !kernel.objects[ChildRole].closed
      modifies this`last, kernel`tick, kernel`tally, kernel`objects, kernel`polls
      ensures kernel.Valid() && kernel.objects.Keys == old(kernel.objects.Keys)
      ensures kernel.objects - {ChildRole} == old(kernel.objects) - {ChildRole}
      ensures var n := old(kernel.tick);
              && r == (match AskTrouble(old(last), n) case Some(t) => Err(t) case None => Ok(kernel.env(n + 3).poll))
              && (r.Ok? ==>
                    && kernel.tick == n + 7 && last == kernel.env(n + 4).time && ValidPoll(r.value)
                    && kernel.polls == old(kernel.polls) + [r.value]
                    && kernel.objects == if r.value.exit.Some?
                                         then old(kernel.objects)[ChildRole := old(kernel.objects)[ChildRole].(running := false)]
                                         else old(kernel.objects))
    {
      hide Fenced, ValidPoll, Kernel.ProcsOk, Kernel.FdsOk;
      var fence := Fence();
      if fence.Err? {
        return Err(fence.error);
      }
      var polled := kernel.PollChild();
      if polled.Err? {
        return Err(polled.error);
      }
      if !ValidPoll(polled.value) {
        return Err(Violation(ProtocolInvalid));
      }
      fence := Fence();
      if fence.Err? {
        return Err(fence.error);
      }
      if !polled.value.alive {
        return Err(Violation(HelperCrashed));
      }
      return polled;
    }

    /** Before round `i` of polling from call `n` on: what was reported, what is held, and where the clock stands. */
    ghost predicate Polling(before: Time, n: nat, i: nat, exit: Option<nat>)
      reads this, channel, kernel`polls, kernel`tick, kernel`objects
    {
      && kernel.polls == PollsAt(n, i) && Holds(PollsAt(n, i)) && exit == ExitOf(PollsAt(n, i)) && Agree(PollsAt(n, i))
      && kernel.tick == n + 7 * i && last == LastAt(before, n, i)
      && ChildRole in kernel.objects && kernel.objects[ChildRole] == if exit.Some? then FINISHED else RUNNING
    }

    lemma NextRound(before: Time, n: nat, i: nat)
      ensures var seen, p := PollsAt(n, i), kernel.env(n + 7 * i + 3).poll;
              && PollsAt(n, i + 1) == seen + [p] && LastAt(before, n, i + 1) == kernel.env(n + 7 * i + 4).time
              && (Agree(seen) && (p.exit.Some? && ExitOf(seen).Some? ==> p.exit == ExitOf(seen)) ==> Agree(seen + [p]))
    {
      hide Agree, ExitOf;
      var seen, p := PollsAt(n, i), kernel.env(n + 7 * i + 3).poll;
      assert PollsAt(n, i + 1) == seen + [p] && (seen + [p])[..i] == seen;
      AgreeGrows(seen + [p]);
    }

    /** One round. */
    method PollRound(exit: Option<nat>, ghost before: Time, ghost n: nat, ghost i: nat) returns (r: Result<Option<nat>, Trouble>)
      requires Valid() && Heard(4, false) && Polling(before, n, i, exit)
      modifies this, kernel`tick, kernel`tally, kernel`objects, kernel`polls
      modifies channel`frames, channel`bytes, channel`sequence
      ensures Valid() && Open() && kernel.objects.Keys == old(kernel.objects.Keys)
      ensures kernel.objects - {ChildRole} == old(kernel.objects) - {ChildRole}
      ensures r.Ok? ==> Heard(4, false) && Polling(before, n, i + 1, r.value) && RoundTrouble(before, n, i).None?
      ensures r.Err? && Faithful(channel.transform) ==> Some(r.error) == RoundTrouble(before, n, i)
    {
      hide Hear, Kernel.ProcsOk, Kernel.FdsOk, ValidPoll, AskTrouble, TakeTrouble, Joined, Chunks, EofAfter, ExitOf, FrameCount,
        WellFormed, Agree, PollsAt, LastAt;
      NextRound(before, n, i);
      var polled := AskChild();
      if polled.Err? {
        return Err(polled.error);
      }
      var poll := polled.value;
      PollsGrow(PollsAt(n, i), poll);
      var taken := TakePoll(poll, PollsAt(n, i));
      if taken.Err? {
        return Err(taken.error);
      }
      if poll.exit.Some? && exit.Some? && exit != poll.exit {
        return Err(Violation(SequenceInvalid));
      }
      return Ok(if poll.exit.Some? then poll.exit else exit);
    }

    /** Rounds until both streams have ended and an exit was reported; the exit must be zero. */
    method PollToEnd() returns (r: Result<(), Trouble>)
      requires Valid() && Heard(4, false) && kernel.polls == [] && out == err == [] && eof == {} && |channel.frames| == 4
      requires ChildRole in kernel.objects && kernel.objects[ChildRole] == RUNNING
      modifies this, kernel`tick, kernel`tally, kernel`objects, kernel`polls
      modifies channel`frames, channel`bytes, channel`sequence
      ensures Valid() && Open() && kernel.objects.Keys == old(kernel.objects.Keys)
      ensures kernel.objects - {ChildRole} == old(kernel.objects) - {ChildRole}
      ensures r.Ok? || Faithful(channel.transform) ==> r == Told(PollTrouble(old(last), old(kernel.tick), 0))
      ensures r.Ok? ==>
                && Heard(4, false) && eof == BOTH && ExitsZero(kernel.polls)
                && Polling(old(last), old(kernel.tick), RoundsFrom(old(kernel.tick), 0), Some(0))
    {
      hide Hear, Kernel.ProcsOk, Kernel.FdsOk, RoundTrouble, ExitOf, EofAfter, Joined, Chunks, FrameCount, WellFormed, Agree, ExitsZero;
      NothingPolled();
      NothingAgrees([]);
      ghost var n, before := kernel.tick, last;
      assert PollsAt(n, 0) == [];
      var exit: Option<nat>, i := None, 0;
      while i < MAX_POLLS && !(eof == BOTH && exit.Some?)
        invariant 0 <= i <= MAX_POLLS && Valid() && Heard(4, false) && Open() && kernel.objects.Keys == old(kernel.objects.Keys)
        invariant kernel.objects - {ChildRole} == old(kernel.objects) - {ChildRole}
        invariant Polling(before, n, i, exit)
        invariant PollTrouble(before, n, i) == PollTrouble(before, n, 0) && RoundsFrom(n, i) == RoundsFrom(n, 0)
      {
        var round := PollRound(exit, before, n, i);
        if round.Err? {
          return Err(round.error);
        }
        exit, i := round.value, i + 1;
      }
      if !(eof == BOTH && exit == Some(0)) {
        return Err(Violation(IncompleteOutput));
      }
      ExitsExact(kernel.polls);
      return Ok(());
    }

    method ConcludeChecks() returns (r: Result<(), Trouble>)
      modifies this`last, kernel`tick, kernel`tally
      ensures r == Told(ConcludeTrouble(old(last), old(kernel.tick)))
      ensures r.Ok? ==> kernel.tick == old(kernel.tick) + 5 && last == kernel.env(old(kernel.tick)).time
    {
      hide Fenced, Kernel.Asked;
      r := Fence();
      if r.Err? { return; }
      r := Check(IdentityMismatch);
      if r.Err? { return; }
      r := Check(ExecutableMismatch);
    }

    method Conclude() returns (r: Result<(), Trouble>)
      requires Valid() && Heard(4, false) && eof == BOTH
      modifies this`last, kernel`tick, kernel`tally, channel`frames, channel`bytes, channel`sequence
      ensures Valid() && Open()
      ensures r.Ok? ==> Heard(4, true) && |channel.frames| == |old(channel.frames)| + 1
      ensures r.Ok? || Faithful(channel.transform) ==>
                r == Told(Then(ConcludeTrouble(old(last), old(kernel.tick)),
                               Unless(|old(channel.frames)| < MAX_MESSAGES, EvidenceInvalid)))
      ensures r.Ok? ==> kernel.tick == old(kernel.tick) + 5 && last == kernel.env(old(kernel.tick)).time
    {
      hide Hear, Kernel.ProcsOk, Kernel.FdsOk, ConcludeTrouble;
      r := ConcludeChecks();
      if r.Err? { return; }
      r := Tell(Exit, [0, 0]);
      assert r.Ok? ==> r.value == ();
    }

    ghost predicate Fresh()
      reads this, kernel, channel
    {
      && Valid() && channel.frames == [] && !channel.closed && kernel.polls == [] && kernel.attempts == []
      && out == err == [] && eof == {}
    }

    /** Everything before polling: 32 calls. */
    function PreludeTrouble(before: Time, n: nat, invoke: seq<Byte>, escrowed: bool): Option<Trouble> {
      Then(BeginTrouble(before, n, invoke), Then(EnterTrouble(kernel.env(n + 8).time, n + 12),
        Then(DropTrouble(n + 18), LaunchTrouble(kernel.env(n + 14).time, n + 20, escrowed))))
    }

    /** The rounds of polling after the prelude that began at call `n`. */
    function Rounds(n: nat): nat { RoundsFrom(n + 32, 0) }

    function FinishTrouble(n: nat): Option<Trouble> {
      var k := Rounds(n);
      Then(PollTrouble(kernel.env(n + 27).time, n + 32, 0),
        Then(ConcludeTrouble(LastAt(kernel.env(n + 27).time, n + 32, k), n + 32 + 7 * k),
             Unless(4 + FrameCount(PollsAt(n + 32, k)) < MAX_MESSAGES, EvidenceInvalid)))
    }

    function AttemptTrouble(before: Time, n: nat, invoke: seq<Byte>, escrowed: bool): Option<Trouble> {
      Then(PreludeTrouble(before, n, invoke, escrowed), FinishTrouble(n))
    }

    method Prelude(invoke: seq<Byte>) returns (r: Result<(), Trouble>)
      requires Fresh()
      modifies this`last, kernel`tick, kernel`tally, kernel`objects, kernel`escrow, kernel`pins
      modifies channel`frames, channel`bytes, channel`sequence
      ensures Valid() && Open() && kernel.objects.Keys >= old(kernel.objects.Keys)
      ensures kernel.objects - {ChildRole} == old(kernel.objects) - {ChildRole}
      ensures r.Ok? || Faithful(channel.transform) ==>
                r == Told(PreludeTrouble(old(last), old(kernel.tick), invoke, ChildRole in old(kernel.escrow)))
      ensures r.Ok? ==> Heard(4, false) && |channel.frames| == 4 && kernel.objects == old(kernel.objects)[ChildRole := RUNNING]
      ensures r.Ok? ==> kernel.tick == old(kernel.tick) + 32 && last == kernel.env(old(kernel.tick) + 27).time
      ensures r.Ok? ==> kernel.pins == Some(if old(kernel.pins).Some? then old(kernel.pins).value else kernel.PinsAt(old(kernel.tick)))
    {
      hide Kernel.ProcsOk, Kernel.FdsOk, Step, Decode, BeginTrouble, EnterTrouble, DropTrouble, LaunchTrouble, RowsMatch, Kernel.PinsAt,
        WellFormed;
      SilenceHeard();
      hide Hear;
      r := Begin(invoke);
      if r.Err? { return; }
      r := Enter();
      if r.Err? { return; }
      r := DropCredentials();
      if r.Err? { return; }
      r := Launch();
    }

    lemma SilenceHeard()
      requires channel.frames == [] && !channel.closed && eof == {} && out == err == []
      ensures Heard(0, false) && Open()
    {
    }

    /** The protected part of the helper. */
    method Attempt(invoke: seq<Byte>) returns (r: Result<(), Trouble>)
      requires Fresh()
      modifies this, kernel`tick, kernel`tally, kernel`objects, kernel`polls, kernel`escrow, kernel`pins
      modifies channel`frames, channel`bytes, channel`sequence
      ensures Valid() && Open() && kernel.objects.Keys >= old(kernel.objects.Keys)
      ensures kernel.objects - {ChildRole} == old(kernel.objects) - {ChildRole}
      ensures r.Ok? || Faithful(channel.transform) ==>
                r == Told(AttemptTrouble(old(last), old(kernel.tick), invoke, ChildRole in old(kernel.escrow)))
      ensures r.Ok? ==>
                var n, k := old(kernel.tick), Rounds(old(kernel.tick));
                && Heard(4, true) && eof == BOTH && |channel.frames| == 5 + FrameCount(PollsAt(n + 32, k))
                && ExitsZero(kernel.polls)
                && kernel.polls == PollsAt(n + 32, k) && kernel.tick == n + 37 + 7 * k && last == kernel.env(n + 32 + 7 * k).time
                && out == Joined(Chunks(kernel.polls), OutStream) && err == Joined(Chunks(kernel.polls), ErrStream)
      ensures r.Ok? ==> ChildRole in kernel.objects && kernel.objects[ChildRole] == FINISHED
      ensures r.Ok? ==> kernel.pins == Some(if old(kernel.pins).Some? then old(kernel.pins).value else kernel.PinsAt(old(kernel.tick)))
    {
      hide Kernel.ProcsOk, Kernel.FdsOk, Hear, PreludeTrouble, PollTrouble, ConcludeTrouble, Joined, Chunks, EofAfter, ExitOf, FrameCount,
        Kernel.PinsAt, WellFormed, Agree, ExitsZero;
      r := Prelude(invoke);
      if r.Err? { return; }
      r := PollToEnd();
      if r.Err? { return; }
      r := Conclude();
    }

    // ----- afterwards, on every path -----

    /** After a successful attempt that ended at call `m`: the child stops in time, the fence still holds, and
        every descriptor but the control ones closes. */
    predicate Settles(before: Time, m: nat, held: Option<map<nat, Option<Facts>>>) {
      Stops(before, m) && Releases(held, m + 8)
    }

    predicate Stops(before: Time, m: nat) {
      && kernel.env(m).early.None? && StopsAt(kernel.env, ChildRole, FINISHED, inv.timing, Some(before), m + 1)
      && Fenced(before, m + 5).None?
    }

    predicate Releases(held: Option<map<nat, Option<Facts>>>, n: nat) {
      var rows := NotControl(kernel.catalog);
      && kernel.env(n).early.None? && kernel.env(n).late.None?
      && forall i | 0 <= i < |rows| :: kernel.Closes(held, n + 1 + i, rows[i].fd)
    }

    /** The receipt again, and every descriptor of it but the control ones closed. */
    method Release() returns (closing: Result<bool, Trouble>)
      requires kernel.Valid() && kernel.closed == {}
      modifies kernel`tick, kernel`pins, kernel`closed, kernel`attempts, kernel`fdCleanupFailed
      ensures kernel.Valid() && (old(kernel.Pinned()) ==> kernel.Pinned()) && (old(kernel.pins).Some? ==> kernel.pins == old(kernel.pins))
      ensures closing.Ok? && old(kernel.attempts) == [] ==> kernel.Pinned()
      ensures old(kernel.pins).Some? ==> (closing == Ok(true) <==> Releases(old(kernel.pins), old(kernel.tick)))
    {
      assert DistinctFds(kernel.catalog);
      NotControlDistinct(kernel.catalog);
      hide Kernel.ProcsOk, Kernel.FdsOk, Kernel.Closes;
      var receipt := kernel.TransferReceipt();
      if receipt.Err? {
        return Err(receipt.error);
      }
      ghost var m, rows := kernel.tick, NotControl(kernel.catalog);
      closing := kernel.CloseTransferred(NotControl(receipt.value));
      assert m == old(kernel.tick) + 1;
    }

    /** Clean the child, and while its descriptors are still open pass the last fence. */
    method StopChild(reason: Option<Reason>) returns (end: Option<Reason>, clean: bool, interrupted: bool)
      requires kernel.Valid() && (reason.None? ==> ChildRole in kernel.objects)
      modifies this`last, kernel`tick, kernel`tally, kernel`objects, kernel`cleanupFailed
      ensures kernel.Valid() && kernel.objects.Keys == old(kernel.objects.Keys)
      ensures kernel.objects - {ChildRole} == old(kernel.objects) - {ChildRole}
      ensures reason.Some? ==> end == reason
      ensures end.None? && clean ==> reason.None? && kernel.Gone(ChildRole)
      ensures reason.None? && old(kernel.objects)[ChildRole] == FINISHED ==>
                && (end.None? && clean <==> Stops(old(last), old(kernel.tick)))
                && (end.None? && clean ==> kernel.tick == old(kernel.tick) + 8)
      ensures kernel.cleanupFailed == (old(kernel.cleanupFailed) || !clean)
    {
      hide Kernel.ProcsOk, Kernel.FdsOk, StopsAt, Fenced;
      end := reason;
      var found;
      clean, found, interrupted := RecoverCleanup(kernel, ChildRole, inv.timing, reason.None?, last);
      if end.None? && clean {
        var fence := Fence();
        if fence.Err? {
          end, interrupted := Some(FiniteReason(fence.error)), interrupted || fence.error == Interrupt;
        }
      }
    }

    /** Clean the child, pass the last fence while its descriptors are still open, close them. */
    method Settle(reason: Option<Reason>) returns (end: Option<Reason>, clean: bool, interrupted: bool)
      requires kernel.Valid() && kernel.attempts == []
      requires reason.None? ==> ChildRole in kernel.objects
      modifies this`last, kernel
      ensures kernel.Valid() && kernel.objects.Keys == old(kernel.objects.Keys) && kernel.polls == old(kernel.polls)
      ensures kernel.objects - {ChildRole} == old(kernel.objects) - {ChildRole}
      ensures end.None? ==> reason.None? && clean && kernel.Gone(ChildRole) && kernel.Pinned()
      ensures reason.None? && old(kernel.objects)[ChildRole] == FINISHED && old(kernel.pins).Some? ==>
                (end.None? <==> Settles(old(last), old(kernel.tick), old(kernel.pins)))
      ensures clean && reason.Some? ==> end == reason
      ensures old(kernel.pins).Some? ==> kernel.pins == old(kernel.pins)
      ensures !clean ==> end == Some(CleanupUnproven)
      ensures old(kernel.cleanupFailed) ==> kernel.cleanupFailed
    {
      NothingClosed(kernel);
      hide Kernel.ProcsOk, Kernel.FdsOk, Stops, Releases;
      end, clean, interrupted := StopChild(reason);
      var closing := Release();
      interrupted := interrupted || closing == Err(Interrupt);
      clean := clean && closing == Ok(true);
      if !clean {
        end := Some(CleanupUnproven);
      }
    }

    /** The last word: the cleanup receipt and the completion, or the reason it failed. */
    method Close(reason: Option<Reason>, clean: bool) returns (end: Option<Reason>)
      requires Valid() && Open() && (reason.None? ==> Heard(4, true) && eof == BOTH)
      modifies channel`frames, channel`bytes, channel`sequence, channel`finishedAt
      ensures Valid() && (end.None? ==> reason.None? && channel.finishedAt == Some(last))
      ensures Faithful(channel.transform) ==>
                var h := Hear(inv, channel.frames);
                && h.Ok? && (h.value.complete <==> end.None?)
                && (end.None? ==> h.value.out == out && h.value.err == err)
                && (h.value.error.Some? ==> reason.Some? && end == reason && h.value.error == Some((reason.value, clean)))
      ensures Faithful(channel.transform) && end != reason ==> |channel.frames| == MAX_MESSAGES
      ensures Faithful(channel.transform) ==>
                end == if |old(channel.frames)| + (if reason.None? then 2 else 1) <= MAX_MESSAGES then reason else Some(EvidenceInvalid)
    {
      hide Hear, Kernel.ProcsOk, Kernel.FdsOk;
      var r;
      if reason.None? {
        r := Tell(Reaped, inv.cleanupReceipt);
        if r.Ok? {
          r := Tell(Complete, Receipt(inv, out, err, inv.cleanupReceipt));
          if r.Ok? {
            channel.finishedAt := Some(last);
          }
        }
        return if r.Ok? then None else Some(FiniteReason(r.error));
      }
      r := Tell(Error, [0, ReasonCode(reason.value), if clean then 1 else 0]);
      return if r.Ok? then reason else Some(FiniteReason(r.error));
    }

    /** What the kernel must answer, from call `n` on, for an invocation without a reason. */
    predicate Flawless(before: Time, n: nat, invoke: seq<Byte>, escrowed: bool, held: Option<map<nat, Option<Facts>>>) {
      var k := Rounds(n);
      && AttemptTrouble(before, n, invoke, escrowed).None?
      && Settles(kernel.env(n + 32 + 7 * k).time, n + 37 + 7 * k, Some(if held.Some? then held.value else kernel.PinsAt(n)))
      && 7 + FrameCount(PollsAt(n + 32, k)) <= MAX_MESSAGES
    }

    /** The invocation up to its last word. */
    method Serve(invoke: seq<Byte>) returns (reason: Option<Reason>, clean: bool, interrupted: bool)
      requires Fresh()
      modifies this, kernel, channel`frames, channel`bytes, channel`sequence, channel`finishedAt
      ensures Faithful(channel.transform) ==>
                (reason.None? <==> Flawless(old(last), old(kernel.tick), invoke, ChildRole in old(kernel.escrow), old(kernel.pins)))
      ensures Faithful(channel.transform) && clean ==>
                Blamed(reason, AttemptTrouble(old(last), old(kernel.tick), invoke, ChildRole in old(kernel.escrow)))
      ensures kernel.objects - {ChildRole} == old(kernel.objects) - {ChildRole}
      ensures Valid() && kernel.objects.Keys >= old(kernel.objects.Keys)
      ensures Faithful(channel.transform) ==>
                var h := Hear(inv, channel.frames);
                && h.Ok? && (reason.None? <==> h.value.complete)
                && (h.value.complete ==> h.value.out == Joined(Chunks(kernel.polls), OutStream)
                                         && h.value.err == Joined(Chunks(kernel.polls), ErrStream))
                && (h.value.error.Some? ==> reason == Some(h.value.error.value.0) && (clean <==> h.value.error.value.1))
      ensures reason.None? ==> ExitsZero(kernel.polls) && clean && kernel.Gone(ChildRole) && kernel.Pinned() && channel.finishedAt == Some(last)
      ensures old(kernel.cleanupFailed) ==> kernel.cleanupFailed
    {
      hide Hear, Step, Joined, Chunks, WellFormed, Kernel.ProcsOk, Kernel.FdsOk, Kernel.Gone, Kernel.Pinned, AttemptTrouble, Settles, ExitsZero,
        FrameCount, PollsAt, RoundsFrom, Kernel.PinsAt;
      var tried := Attempt(invoke);
      reason := match tried case Ok(_) => None case Err(trouble) => Some(FiniteReason(trouble));
      interrupted := tried == Err(Interrupt);
      var again;
      reason, clean, again := Settle(reason);
      reason := Close(reason, clean);
      interrupted := interrupted || again;
    }

    /** A failed attempt is reported by its own reason, unless the channel had no room left to say so. */
    ghost predicate Blamed(reason: Option<Reason>, trouble: Option<Trouble>)
      reads channel
    {
      trouble.Some? ==> reason == Some(FiniteReason(trouble.value))
                        || (reason == Some(EvidenceInvalid) && |channel.frames| == MAX_MESSAGES)
    }

    /** One invocation, whatever the kernel and the polls do.  On an untransformed channel every
        emitted frame is accepted by the verifier, the helper reports no reason exactly when the
        transcript is complete and exactly when the kernel answered every question well, and the
        transcript then holds exactly the polled output. */
    method Run(invoke: seq<Byte>) returns (reason: Option<Reason>, clean: bool, interrupted: bool)
      requires Fresh()
      modifies this, kernel, channel
      ensures Faithful(channel.transform) ==>
                (reason.None? <==> Flawless(old(last), old(kernel.tick), invoke, ChildRole in old(kernel.escrow), old(kernel.pins)))
      ensures Faithful(channel.transform) && clean ==>
                Blamed(reason, AttemptTrouble(old(last), old(kernel.tick), invoke, ChildRole in old(kernel.escrow)))
      ensures kernel.objects - {ChildRole} == old(kernel.objects) - {ChildRole}
      ensures Valid() && channel.closed && kernel.objects.Keys >= old(kernel.objects.Keys)
      ensures Faithful(channel.transform) ==>
                var h := Hear(inv, channel.frames);
                && h.Ok? && (reason.None? <==> h.value.complete)
                && (h.value.complete ==> h.value.out == Joined(Chunks(kernel.polls), OutStream)
                                         && h.value.err == Joined(Chunks(kernel.polls), ErrStream))
                && (h.value.error.Some? ==> reason == Some(h.value.error.value.0) && (clean ==> h.value.error.value.1))
      ensures reason.None? ==> ExitsZero(kernel.polls) && kernel.Gone(ChildRole) && kernel.Pinned() && channel.finishedAt == Some(last)
      ensures kernel.cleanupFailed || (clean && !old(kernel.cleanupFailed))
      ensures clean ==> forall row | row in kernel.catalog && row.slot == Control :: row.fd in kernel.closed
    {
      hide Hear, Joined, Chunks, WellFormed, Kernel.ProcsOk, Kernel.FdsOk, Kernel.Gone, Kernel.Pinned, AttemptTrouble, Flawless,
        ExitsZero;
      reason, clean, interrupted := Serve(invoke);
      var control := kernel.CloseControl();
      clean := clean && control == Ok(true);
      interrupted := interrupted || control == Err(Interrupt);
      channel.closed := true;
      if !clean {
        kernel.cleanupFailed := true;
      }
    }
  }

  lemma NothingClosed(kernel: Kernel)
    requires kernel.Valid() && kernel.attempts == []
    ensures kernel.closed == {}
  {
    assert forall fd :: fd in kernel.closed <==> fd in ClosedBy(kernel.attempts);
  }

  lemma {:induction false} NotControlDistinct(rows: seq<Row>)
    requires DistinctFds(rows)
    ensures DistinctFds(NotControl(rows)) && Fds(NotControl(rows)) <= Fds(rows)
    ensures forall row | row in NotControl(rows) :: row in rows
  {
    if rows != [] {
      NotControlDistinct(rows[1..]);
      assert forall row | row in NotControl(rows[1..]) :: row.fd != rows[0].fd;
      assert forall row | row in rows[1..] :: row in rows;
      assert rows[0] in rows;
    }
  }

  function NotControl(rows: seq<Row>): seq<Row> {
    if rows == [] then []
    else (if rows[0].slot != Control then [rows[0]] else []) + NotControl(rows[1..])
  }

  lemma ChunksGrow(polls: seq<Poll>, poll: Poll)
    ensures Chunks(polls + [poll]) == Chunks(polls) + poll.chunks
    ensures forall s :: Joined(Chunks(polls + [poll]), s) == Joined(Chunks(polls), s) + Joined(poll.chunks, s)
  {
    assert (polls + [poll])[..|polls|] == polls;
    forall s { JoinedSplits(Chunks(polls), poll.chunks, s); }
  }
}
