/**
Which polls let a helper finish.  The runtime's trouble functions follow the loop round by round;
here the same condition is stated of the polls as a whole, and of what they say about the child.
*/
module HelperPolls {
  import opened Base
  import opened HelperProtocol
  import opened HelperKernel
  import opened HelperTranscript
  import opened HelperRuntime

  predicate Within(inv: Invocation, chunks: seq<(Stream, seq<Byte>)>) {
    Size(chunks, OutStream) <= inv.outCap && Size(chunks, ErrStream) <= inv.errCap
  }

  /** No chunk of a stream after a poll that reported its end. */
  predicate InOrder(polls: seq<Poll>) {
    forall i, c | 0 <= i < |polls| && c in polls[i].chunks :: c.0 !in EofAfter(polls[..i])
  }

  predicate Fits(polls: seq<Poll>) { 4 + FrameCount(polls) <= MAX_MESSAGES }

  /** All polls are well formed and from a living helper, both streams end, the child exits with zero, nothing
      comes after an end of file, output and frames stay within their limits, and no earlier poll was the last. */
  predicate Good(inv: Invocation, polls: seq<Poll>) {
    && (forall p | p in polls :: ValidPoll(p) && p.alive)
    && EofAfter(polls) == BOTH && ExitsZero(polls) && InOrder(polls) && Within(inv, Chunks(polls)) && Fits(polls)
    && (forall j | 0 <= j < |polls| :: !Done(polls[..j]))
  }

  /** The two fences of round `i`, and the poll between them, are answered well. */
  predicate Watched(h: Helper, before: Time, n: nat, i: nat) {
    && h.Fenced(h.LastAt(before, n, i), n + 7 * i).None? && h.kernel.env(n + 7 * i + 3).early.None?
    && h.Fenced(h.kernel.env(n + 7 * i).time, n + 7 * i + 4).None?
  }

  predicate GoodRounds(h: Helper, before: Time, n: nat, k: nat) {
    k <= MAX_POLLS && (forall i | 0 <= i < k :: Watched(h, before, n, i)) && Good(h.inv, h.PollsAt(n, k))
  }

  // ----- the loop, unrolled -----

  predicate NoTrouble(h: Helper, before: Time, n: nat, k: nat) {
    && k <= MAX_POLLS && Done(h.PollsAt(n, k)) && ExitOf(h.PollsAt(n, k)) == Some(0)
    && (forall j | 0 <= j < k :: h.RoundTrouble(before, n, j).None? && !Done(h.PollsAt(n, j)))
  }

  lemma {:induction false} LoopEnds(h: Helper, before: Time, n: nat, i: nat)
    requires i <= MAX_POLLS && h.PollTrouble(before, n, i).None?
    requires forall j | 0 <= j < i :: h.RoundTrouble(before, n, j).None? && !Done(h.PollsAt(n, j))
    ensures NoTrouble(h, before, n, h.RoundsFrom(n, i))
    decreases MAX_POLLS - i
  {
    hide Done, ExitOf, EofAfter, Helper.RoundTrouble, Helper.PollsAt;
    if i < MAX_POLLS && !Done(h.PollsAt(n, i)) {
      LoopEnds(h, before, n, i + 1);
    }
  }

  lemma {:induction false} LoopRuns(h: Helper, before: Time, n: nat, i: nat, k: nat)
    requires i <= k && NoTrouble(h, before, n, k)
    ensures h.PollTrouble(before, n, i).None? && h.RoundsFrom(n, i) == k
    decreases k - i
  {
    hide Done, ExitOf, Helper.RoundTrouble, Helper.PollsAt;
    if i < k {
      LoopRuns(h, before, n, i + 1, k);
    }
  }

  // ----- one poll taken -----

  lemma {:induction false} ChunksTaken(h: Helper, seen: seq<Poll>, chunks: seq<(Stream, seq<Byte>)>, j: nat)
    requires WellFormed(h.inv) && j <= |chunks| && Within(h.inv, Chunks(seen)) && Fits(seen)
    ensures h.ChunksTrouble(seen, chunks, j).None? <==>
            && (forall m | 0 <= m < j :: chunks[m].0 !in EofAfter(seen))
            && Within(h.inv, Chunks(seen) + chunks[..j]) && 4 + FrameCount(seen) + j <= MAX_MESSAGES
  {
    hide Chunks, EofAfter, Joined;
    if j == 0 {
      assert Chunks(seen) + chunks[..0] == Chunks(seen);
    } else {
      ChunksTaken(h, seen, chunks, j - 1);
      JoinedOne(Chunks(seen), chunks, j - 1);
    }
  }

  lemma TakenExact(h: Helper, seen: seq<Poll>, p: Poll)
    requires WellFormed(h.inv) && Within(h.inv, Chunks(seen)) && Fits(seen)
    ensures h.TakeTrouble(seen, p).None? <==>
            && (forall c | c in p.chunks :: c.0 !in EofAfter(seen))
            && Within(h.inv, Chunks(seen + [p])) && Fits(seen + [p])
  {
    hide Chunks, EofAfter, Within, ExitOf;
    ChunksTaken(h, seen, p.chunks, |p.chunks|);
    PollsGrow(seen, p);
    assert p.chunks[..|p.chunks|] == p.chunks;
    SubsetSize(EofAfter(seen), EofAfter(seen) + EofsOf(p));
  }

  lemma SubsetSize(a: set<Stream>, b: set<Stream>)
    requires a <= b
    ensures |a| <= |b|
  {
    assert b == a + (b - a);
  }

  predicate Taken(h: Helper, polls: seq<Poll>) {
    forall j | 0 <= j < |polls| :: h.TakeTrouble(polls[..j], polls[j]).None?
  }

  lemma Shrinks(inv: Invocation, seen: seq<Poll>, p: Poll)
    ensures Within(inv, Chunks(seen + [p])) ==> Within(inv, Chunks(seen))
    ensures Fits(seen + [p]) ==> Fits(seen)
  {
    hide Chunks, EofAfter, Joined, ExitOf;
    PollsGrow(seen, p);
    ChunksGrow(seen, p);
    SubsetSize(EofAfter(seen), EofAfter(seen) + EofsOf(p));
  }

  lemma InOrderGrows(polls: seq<Poll>)
    requires polls != []
    ensures var front, p := polls[..|polls| - 1], polls[|polls| - 1];
            InOrder(polls) <==> InOrder(front) && forall c | c in p.chunks :: c.0 !in EofAfter(front)
  {
    hide EofAfter;
    var front := polls[..|polls| - 1];
    assert forall i | 0 <= i < |front| :: front[i] == polls[i] && front[..i] == polls[..i];
  }

  lemma {:induction false} AllTakenExact(h: Helper, polls: seq<Poll>)
    requires WellFormed(h.inv)
    ensures Taken(h, polls) <==> InOrder(polls) && Within(h.inv, Chunks(polls)) && Fits(polls)
  {
    hide InOrder, Within, Fits, EofAfter, ExitOf, WellFormed;
    if polls == [] {
      NothingTaken(h, polls);
    } else {
      var front, p := polls[..|polls| - 1], polls[|polls| - 1];
      assert polls == front + [p];
      assert forall i | 0 <= i < |front| :: front[i] == polls[i] && front[..i] == polls[..i];
      AllTakenExact(h, front);
      Shrinks(h.inv, front, p);
      InOrderGrows(polls);
      if Within(h.inv, Chunks(front)) && Fits(front) {
        TakenExact(h, front, p);
      }
    }
  }

  lemma NothingTaken(h: Helper, polls: seq<Poll>)
    requires polls == []
    ensures InOrder(polls) && Within(h.inv, Chunks(polls)) && Fits(polls)
  {
  }

  // ----- both together -----

  lemma PollsPrefix(h: Helper, n: nat, k: nat, j: nat)
    requires j <= k
    ensures h.PollsAt(n, k)[..j] == h.PollsAt(n, j)
    ensures j < k ==> h.PollsAt(n, k)[j] == h.kernel.env(n + 7 * j + 3).poll
  {
  }

  /** A round without trouble, in the terms of its poll. */
  lemma RoundMeans(h: Helper, before: Time, n: nat, k: nat, j: nat)
    requires j < k
    ensures var polls := h.PollsAt(n, k);
            h.RoundTrouble(before, n, j).None? <==>
              && Watched(h, before, n, j) && ValidPoll(polls[j]) && polls[j].alive
              && h.TakeTrouble(polls[..j], polls[j]).None?
              && (polls[j].exit.Some? && ExitOf(polls[..j]).Some? ==> polls[j].exit == ExitOf(polls[..j]))
  {
    hide ValidPoll, ExitOf;
    PollsPrefix(h, n, k, j);
  }

  /** Every round without trouble, in the terms of the polls. */
  lemma AllRoundsMean(h: Helper, before: Time, n: nat, k: nat)
    ensures var polls := h.PollsAt(n, k);
            (forall j | 0 <= j < k :: h.RoundTrouble(before, n, j).None?) <==>
              && (forall j | 0 <= j < k :: Watched(h, before, n, j)) && (forall p | p in polls :: ValidPoll(p) && p.alive)
              && Taken(h, polls) && Agree(polls)
  {
    hide ValidPoll, Watched, ExitOf, Helper.TakeTrouble, Helper.RoundTrouble, Helper.PollsAt;
    var polls := h.PollsAt(n, k);
    SeenOnce(polls);
    forall j | 0 <= j < k
      ensures h.RoundTrouble(before, n, j).None? <==>
              && Watched(h, before, n, j) && ValidPoll(polls[j]) && polls[j].alive
              && h.TakeTrouble(polls[..j], polls[j]).None?
              && (polls[j].exit.Some? && ExitOf(polls[..j]).Some? ==> polls[j].exit == ExitOf(polls[..j]))
    {
      RoundMeans(h, before, n, k, j);
    }
  }

  lemma RoundsMean(h: Helper, before: Time, n: nat, k: nat)
    requires WellFormed(h.inv)
    ensures NoTrouble(h, before, n, k) <==> GoodRounds(h, before, n, k)
  {
    hide ValidPoll, Watched, WellFormed, ExitOf, EofAfter, InOrder, Within, Fits, ExitsZero, Taken, Agree, Helper.RoundTrouble,
      Helper.PollsAt;
    var polls := h.PollsAt(n, k);
    AllRoundsMean(h, before, n, k);
    AllTakenExact(h, polls);
    ExitsExact(polls);
    forall j | 0 <= j < k
      ensures Done(h.PollsAt(n, j)) == Done(polls[..j])
    {
      PollsPrefix(h, n, k, j);
    }
  }

  lemma SeenOnce(polls: seq<Poll>)
    ensures forall p :: p in polls <==> exists j | 0 <= j < |polls| :: polls[j] == p
  {
  }

  /** Polling succeeds exactly when, for some number of rounds, the fences hold and the polls are good. */
  lemma PollingExact(h: Helper, before: Time, n: nat)
    requires WellFormed(h.inv)
    ensures h.PollTrouble(before, n, 0).None? <==> exists k :: GoodRounds(h, before, n, k)
    ensures h.PollTrouble(before, n, 0).None? ==> GoodRounds(h, before, n, h.RoundsFrom(n, 0))
  {
    hide GoodRounds, NoTrouble;
    if h.PollTrouble(before, n, 0).None? {
      LoopEnds(h, before, n, 0);
      RoundsMean(h, before, n, h.RoundsFrom(n, 0));
    }
    if k :| GoodRounds(h, before, n, k) {
      RoundsMean(h, before, n, k);
      LoopRuns(h, before, n, 0, k);
    }
  }
}
