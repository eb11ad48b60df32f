/**
The frame loop of a terminal session: bytes arrive in arbitrary pieces, whole frames are taken off
the front of the buffer and acted on at once.  `dims` reads a resize payload as a
JSON list of integers, where it is one.
*/
module BrokerFrames {
  import opened Base

  const HEADER_SIZE := 5
  const MAX_FRAME := 16384
  const RECEIVE := 16384
  const INPUT_KIND: Byte := 73     // 'I'
  const RESIZE_KIND: Byte := 82    // 'R'

  const MAX_SIDE := 1000

  datatype Size = Size(rows: int, cols: int)

  type Dims = seq<Byte> -> Option<seq<int>>

  predicate GoodSize(sides: seq<int>) { |sides| == 2 && 1 <= sides[0] <= MAX_SIDE && 1 <= sides[1] <= MAX_SIDE }

  datatype Frame = Frame(kind: Byte, payload: seq<Byte>)

  /** What the session does for the client: write to the terminal, or resize it. */
  datatype Act = Input(data: seq<Byte>) | Resize(size: Size)

  datatype Fault = TooLarge | UnknownOperation | BadDimensions

  datatype Stream =
    | Open(buffer: seq<Byte>, acts: seq<Act>)
    | Ended(acts: seq<Act>, fault: Fault)

  function DeclaredSize(bs: seq<Byte>): nat
    requires HEADER_SIZE <= |bs|
  {
    FromU32(bs[1], bs[2], bs[3], bs[4])
  }

  function Operate(dims: Dims, f: Frame): Result<Act, Fault> {
    if f.kind == INPUT_KIND then Ok(Input(f.payload))
    else if f.kind != RESIZE_KIND then Err(UnknownOperation)
    else
      match dims(f.payload)
      case Some(sides) => if GoodSize(sides) then Ok(Resize(Size(sides[0], sides[1]))) else Err(BadDimensions)
      case None => Err(BadDimensions)
  }

  /** Takes every whole frame off the front. */
  function Drain(dims: Dims, bs: seq<Byte>, acts: seq<Act>): Stream
    decreases |bs|
  {
    if |bs| < HEADER_SIZE then Open(bs, acts)
    else
      var size := DeclaredSize(bs);
      if size > MAX_FRAME then Ended(acts, TooLarge)
      else if |bs| < HEADER_SIZE + size then Open(bs, acts)
      else
        match Operate(dims, Frame(bs[0], bs[HEADER_SIZE..HEADER_SIZE + size]))
        case Err(fault) => Ended(acts, fault)
        case Ok(act) => Drain(dims, bs[HEADER_SIZE + size..], acts + [act])
  }

  function Feed(dims: Dims, s: Stream, chunk: seq<Byte>): Stream {
    if s.Ended? then s else Drain(dims, s.buffer + chunk, s.acts)
  }

  function FeedAll(dims: Dims, chunks: seq<seq<Byte>>): Stream {
    if chunks == [] then Open([], []) else Feed(dims, FeedAll(dims, chunks[..|chunks| - 1]), chunks[|chunks| - 1])
  }

  function Joined(chunks: seq<seq<Byte>>): seq<Byte> {
    if chunks == [] then [] else Joined(chunks[..|chunks| - 1]) + chunks[|chunks| - 1]
  }

  /** Bytes that could still become one frame. */
  predicate Unfinished(bs: seq<Byte>) {
    |bs| < HEADER_SIZE || (DeclaredSize(bs) <= MAX_FRAME && |bs| < HEADER_SIZE + DeclaredSize(bs))
  }

  // ----- chunking -----

  lemma {:induction false} DrainSplits(dims: Dims, a: seq<Byte>, b: seq<Byte>, acts: seq<Act>)
    ensures Drain(dims, a + b, acts) == Feed(dims, Drain(dims, a, acts), b)
    decreases |a|
  {
    hide Operate, FromU32;
    if HEADER_SIZE <= |a| && DeclaredSize(a) <= MAX_FRAME && HEADER_SIZE + DeclaredSize(a) <= |a| {
      var n := HEADER_SIZE + DeclaredSize(a);
      assert (a + b)[HEADER_SIZE..n] == a[HEADER_SIZE..n];
      assert (a + b)[n..] == a[n..] + b;
      var act := Operate(dims, Frame(a[0], a[HEADER_SIZE..n]));
      if act.Ok? {
        DrainSplits(dims, a[n..], b, acts + [act.value]);
      }
    }
  }

  /** However the client's bytes are cut up, the session does the same things in the same order,
      holds the same rest, and ends with the same fault. */
  lemma {:induction false} ChunkingIrrelevant(dims: Dims, chunks: seq<seq<Byte>>)
    ensures FeedAll(dims, chunks) == Drain(dims, Joined(chunks), [])
  {
    if chunks != [] {
      var front := chunks[..|chunks| - 1];
      ChunkingIrrelevant(dims, front);
      DrainSplits(dims, Joined(front), chunks[|chunks| - 1], []);
    }
  }

  // ----- what was done, said in frames -----

  predicate Sendable(f: Frame) { |f.payload| <= MAX_FRAME }

  /** One frame as a client sends it. */
  function Encode(f: Frame): (raw: seq<Byte>)
    requires Sendable(f)
    ensures |raw| == HEADER_SIZE + |f.payload|
  {
    [f.kind, 0, 0, |f.payload| / 256, |f.payload| % 256] + f.payload
  }

  predicate Acceptable(dims: Dims, fs: seq<Frame>) {
    forall f | f in fs :: Sendable(f) && Operate(dims, f).Ok?
  }

  function EncodeAll(dims: Dims, fs: seq<Frame>): seq<Byte>
    requires Acceptable(dims, fs)
  {
    if fs == [] then [] else Encode(fs[0]) + EncodeAll(dims, fs[1..])
  }

  function ActsOf(dims: Dims, fs: seq<Frame>): seq<Act>
    requires Acceptable(dims, fs)
  {
    if fs == [] then [] else [Operate(dims, fs[0]).value] + ActsOf(dims, fs[1..])
  }

  lemma HeadFrame(dims: Dims, f: Frame, rest: seq<Byte>, acts: seq<Act>)
    requires Sendable(f) && Operate(dims, f).Ok?
    ensures Drain(dims, Encode(f) + rest, acts) == Drain(dims, rest, acts + [Operate(dims, f).value])
  {
    var bs, n := Encode(f) + rest, HEADER_SIZE + |f.payload|;
    assert bs[0] == f.kind && DeclaredSize(bs) == |f.payload|;
    assert bs[HEADER_SIZE..n] == f.payload && bs[n..] == rest;
  }

  /** Whole acceptable frames followed by an unfinished one are acted on exactly, in order. */
  lemma {:induction false} FramesAreActedOn(dims: Dims, fs: seq<Frame>, tail: seq<Byte>, acts: seq<Act>)
    requires Acceptable(dims, fs) && Unfinished(tail)
    ensures Drain(dims, EncodeAll(dims, fs) + tail, acts) == Open(tail, acts + ActsOf(dims, fs))
    decreases |fs|
  {
    if fs == [] {
      assert EncodeAll(dims, fs) + tail == tail && acts + ActsOf(dims, fs) == acts;
    } else {
      var f, rest := fs[0], fs[1..];
      assert f in fs && forall g | g in rest :: g in fs;
      assert EncodeAll(dims, fs) + tail == Encode(f) + (EncodeAll(dims, rest) + tail);
      HeadFrame(dims, f, EncodeAll(dims, rest) + tail, acts);
      FramesAreActedOn(dims, rest, tail, acts + [Operate(dims, f).value]);
      assert acts + ActsOf(dims, fs) == acts + [Operate(dims, f).value] + ActsOf(dims, rest);
    }
  }

  lemma EncodeInverse(bs: seq<Byte>)
    requires HEADER_SIZE <= |bs| && DeclaredSize(bs) <= MAX_FRAME && HEADER_SIZE + DeclaredSize(bs) <= |bs|
    ensures var n := HEADER_SIZE + DeclaredSize(bs); bs == Encode(Frame(bs[0], bs[HEADER_SIZE..n])) + bs[n..]
  {
    var n := HEADER_SIZE + DeclaredSize(bs);
    assert bs[1] == 0 && bs[2] == 0 && bs[3] == DeclaredSize(bs) / 256 && bs[4] == DeclaredSize(bs) % 256;
    assert bs == bs[..HEADER_SIZE] + bs[HEADER_SIZE..n] + bs[n..];
  }

  lemma OneMoreFrame(dims: Dims, f: Frame, fs: seq<Frame>, held: seq<Byte>, acts: seq<Act>)
    requires Acceptable(dims, fs) && Sendable(f) && Operate(dims, f).Ok?
    ensures Acceptable(dims, [f] + fs)
    ensures EncodeAll(dims, [f] + fs) + held == Encode(f) + (EncodeAll(dims, fs) + held)
    ensures acts + ActsOf(dims, [f] + fs) == acts + [Operate(dims, f).value] + ActsOf(dims, fs)
  {
    assert ([f] + fs)[1..] == fs;
  }

  /** Conversely, whatever an open session did was asked for: its bytes are exactly some list of
      acceptable frames, its acts are theirs, and the rest is one unfinished frame. */
  lemma {:induction false} ActsWereAsked(dims: Dims, bs: seq<Byte>, acts: seq<Act>) returns (fs: seq<Frame>)
    ensures Drain(dims, bs, acts).Open? ==>
              && Acceptable(dims, fs) && Unfinished(Drain(dims, bs, acts).buffer)
              && bs == EncodeAll(dims, fs) + Drain(dims, bs, acts).buffer
              && Drain(dims, bs, acts).acts == acts + ActsOf(dims, fs)
    decreases |bs|
  {
    hide Operate, FromU32, Encode, EncodeAll, ActsOf, Acceptable;
    fs := [];
    NoFrames(dims, bs, acts);
    if HEADER_SIZE <= |bs| && DeclaredSize(bs) <= MAX_FRAME && HEADER_SIZE + DeclaredSize(bs) <= |bs| {
      var n := HEADER_SIZE + DeclaredSize(bs);
      var f := Frame(bs[0], bs[HEADER_SIZE..n]);
      var act := Operate(dims, f);
      EncodeInverse(bs);
      if act.Ok? {
        var rest := ActsWereAsked(dims, bs[n..], acts + [act.value]);
        fs := [f] + rest;
        var after := Drain(dims, bs[n..], acts + [act.value]);
        if after.Open? {
          OneMoreFrame(dims, f, rest, after.buffer, acts);
        }
      }
    }
  }

  lemma NoFrames(dims: Dims, bs: seq<Byte>, acts: seq<Act>)
    ensures Acceptable(dims, []) && EncodeAll(dims, []) + bs == bs && acts + ActsOf(dims, []) == acts
  {
  }

  /** A client that sends part of a frame and waits cannot make the buffer grow. */
  lemma BufferIsBounded(dims: Dims, chunks: seq<seq<Byte>>)
    ensures var s := FeedAll(dims, chunks); s.Open? ==> |s.buffer| < HEADER_SIZE + MAX_FRAME
  {
    ChunkingIrrelevant(dims, chunks);
    var fs := ActsWereAsked(dims, Joined(chunks), []);
  }

  // ----- what reaches the terminal -----

  /** All bytes written to the terminal, and the sizes it was set to. */
  function Written(acts: seq<Act>): seq<Byte> {
    if acts == [] then [] else (if acts[0].Input? then acts[0].data else []) + Written(acts[1..])
  }

  function Shapes(acts: seq<Act>): seq<Size> {
    if acts == [] then [] else (if acts[0].Resize? then [acts[0].size] else []) + Shapes(acts[1..])
  }

  /** The payloads of the input frames, joined, and the resize frames. */
  function Typed(fs: seq<Frame>): seq<Byte> {
    if fs == [] then [] else (if fs[0].kind == INPUT_KIND then fs[0].payload else []) + Typed(fs[1..])
  }

  function Resizes(fs: seq<Frame>): seq<Frame> {
    if fs == [] then [] else (if fs[0].kind == RESIZE_KIND then [fs[0]] else []) + Resizes(fs[1..])
  }

  /** Input reaches the terminal unchanged and in order, whatever resizes come in between; and each resize frame sets
      exactly the two sides it names, which are within bounds. */
  lemma {:induction false} InputIsUnchanged(dims: Dims, fs: seq<Frame>)
    requires Acceptable(dims, fs)
    ensures Written(ActsOf(dims, fs)) == Typed(fs)
    ensures var shapes, resizes := Shapes(ActsOf(dims, fs)), Resizes(fs);
            && |shapes| == |resizes|
            && forall i | 0 <= i < |shapes| ::
                 dims(resizes[i].payload) == Some([shapes[i].rows, shapes[i].cols]) && GoodSize([shapes[i].rows, shapes[i].cols])
  {
    hide Operate, GoodSize;
    if fs != [] {
      var f, rest := fs[0], fs[1..];
      assert f in fs && forall g | g in rest :: g in fs;
      InputIsUnchanged(dims, rest);
      var acts := ActsOf(dims, fs);
      assert acts[0] == Operate(dims, f).value && acts[1..] == ActsOf(dims, rest);
      OneAct(dims, f);
    }
  }

  lemma OneAct(dims: Dims, f: Frame)
    requires Operate(dims, f).Ok?
    ensures var act := Operate(dims, f).value;
            if f.kind == INPUT_KIND then act == Input(f.payload)
            else
              && f.kind == RESIZE_KIND && act.Resize? && GoodSize([act.size.rows, act.size.cols])
              && dims(f.payload) == Some([act.size.rows, act.size.cols])
  {
    if f.kind != INPUT_KIND {
      var sides := dims(f.payload).value;
      assert sides == [sides[0], sides[1]];
    }
  }

  /** A whole session: what was written is the input of some frames whose encodings, with an unfinished rest, are
      the bytes received. */
  lemma WrittenWasTyped(dims: Dims, chunks: seq<seq<Byte>>) returns (fs: seq<Frame>)
    ensures var s := FeedAll(dims, chunks);
            s.Open? ==>
              && Acceptable(dims, fs) && Joined(chunks) == EncodeAll(dims, fs) + s.buffer
              && Written(s.acts) == Typed(fs) && |Shapes(s.acts)| == |Resizes(fs)|
  {
    ChunkingIrrelevant(dims, chunks);
    fs := ActsWereAsked(dims, Joined(chunks), []);
    if FeedAll(dims, chunks).Open? {
      InputIsUnchanged(dims, fs);
      assert [] + ActsOf(dims, fs) == ActsOf(dims, fs);
    }
  }

  /** The first frame that is neither input nor an acceptable resize ends the session, after the acts before it. */
  lemma OthersAreRefused(dims: Dims, fs: seq<Frame>, bad: Frame, rest: seq<Byte>)
    requires Acceptable(dims, fs) && Sendable(bad)
    requires bad.kind != INPUT_KIND
    requires bad.kind == RESIZE_KIND ==> dims(bad.payload).None? || !GoodSize(dims(bad.payload).value)
    ensures Drain(dims, EncodeAll(dims, fs) + (Encode(bad) + rest), [])
            == Ended(ActsOf(dims, fs), if bad.kind == RESIZE_KIND then BadDimensions else UnknownOperation)
  {
    var bs, n := Encode(bad) + rest, HEADER_SIZE + |bad.payload|;
    NothingHeld();
    FramesAreActedOn(dims, fs, [], []);
    assert EncodeAll(dims, fs) + [] == EncodeAll(dims, fs) && [] + ActsOf(dims, fs) == ActsOf(dims, fs);
    DrainSplits(dims, EncodeAll(dims, fs), bs, []);
    assert [] + bs == bs;
    assert bs[0] == bad.kind && DeclaredSize(bs) == |bad.payload| && bs[HEADER_SIZE..n] == bad.payload;
  }

  lemma NothingHeld()
    ensures Unfinished([])
  {
  }

  // ----- the loop -----

  class Session {
    const dims: Dims
    var buffer: seq<Byte>
    var acts: seq<Act>
    ghost var received: seq<seq<Byte>>

    constructor (dims: Dims)
      ensures this.dims == dims && Valid() && received == [] && acts == []
    {
      this.dims := dims;
      buffer, acts, received := [], [], [];
    }

    ghost predicate Valid()
      reads this
    {
      FeedAll(dims, received) == Open(buffer, acts)
    }

    /** One `recv`; a fault leaves the session.  Never more than one frame and one read are held. */
    method Receive(data: seq<Byte>) returns (fault: Option<Fault>)
      requires Valid() && |data| <= RECEIVE
      modifies this
      ensures match FeedAll(dims, old(received) + [data])
              case Open(held, all) => fault.None? && Valid() && acts == all && received == old(received) + [data]
              case Ended(all, reason) => fault == Some(reason) && acts == all
      ensures |buffer| < HEADER_SIZE + MAX_FRAME + RECEIVE
    {
      hide Operate, FromU32;
      BufferIsBounded(dims, received);
      received := received + [data];
      assert received[..|received| - 1] == old(received);
      buffer := buffer + data;
      while HEADER_SIZE <= |buffer|
        invariant received == old(received) + [data] && FeedAll(dims, received) == Drain(dims, buffer, acts)
        invariant |buffer| < HEADER_SIZE + MAX_FRAME + RECEIVE
        decreases |buffer|
      {
        var size := DeclaredSize(buffer);
        if size > MAX_FRAME {
          return Some(TooLarge);
        }
        if |buffer| < HEADER_SIZE + size {
          break;
        }
        var frame := Frame(buffer[0], buffer[HEADER_SIZE..HEADER_SIZE + size]);
        buffer := buffer[HEADER_SIZE + size..];
        match Operate(dims, frame) {
          case Err(reason) =>
            return Some(reason);
          case Ok(act) =>
            acts := acts + [act];
        }
      }
      return None;
    }
  }
}
