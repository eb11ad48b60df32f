/**
Counter instrumentation: `compile_counter_rules` puts a counter in front of every verdict of an
approved rule set, adds probe rules at the head of bridge prerouting and explicit final drops.
The base rules are arbitrary lists of matches that end in accept or drop.
*/
module CounterRules {
  import opened Base
  import opened Firewall

  const CHUNK := 16

  const HOOKS := [Prerouting, Input, Forward, Output]

  datatype Purpose = Allow | GuardDrop | Ingress | TerminalDrop | FallbackDrop

  /** Which counter sits where: command position, position inside the rule, and what it counts. */
  datatype Spec = Spec(command: nat, expression: nat, purpose: Purpose, probe: Option<nat>)

  predicate BaseRule(r: Rule) {
    r.exprs != [] && IsVerdict(r.exprs[|r.exprs| - 1]) && AllMatches(r.exprs[..|r.exprs| - 1])
  }

  predicate BaseRules(base: seq<Rule>) { forall i | 0 <= i < |base| :: BaseRule(base[i]) }

  // ----- the instrumented rule list -----

  function CountRule(r: Rule): Rule
    requires r.exprs != []
  {
    var i := |r.exprs| - 1;
    r.(exprs := r.exprs[..i] + [Counter] + [r.exprs[i]])
  }

  function CountAll(base: seq<Rule>): (counted: seq<Rule>)
    requires BaseRules(base)
    ensures |counted| == |base|
  {
    if base == [] then [] else [CountRule(base[0])] + CountAll(base[1..])
  }

  /** The whole frame, compared in raw pieces of at most 128 bits. */
  function ChunkMatches(frame: seq<Byte>, start: nat): seq<Expr>
    decreases |frame| - start
  {
    if |frame| <= start then []
    else [RawBytes(start, frame[start..Min(start + CHUNK, |frame|)])] + ChunkMatches(frame, start + CHUNK)
  }

  function ProbeMatches(runner: nat, frame: seq<Byte>): seq<Expr> {
    [Equals(IifIndex, runner)] + ChunkMatches(frame, 0)
  }

  function IngressRule(runner: nat, frame: seq<Byte>): Rule {
    Rule(Bridge, Prerouting, ProbeMatches(runner, frame) + [Counter])
  }

  function TerminalRule(runner: nat, frame: seq<Byte>): Rule {
    Rule(Bridge, Prerouting, ProbeMatches(runner, frame) + [Counter, Drop])
  }

  /** Probe 0 is the allowed one: it is only counted. */
  function ProbeRules(runner: nat, index: nat, frame: seq<Byte>): seq<Rule> {
    [IngressRule(runner, frame)] + (if index == 0 then [] else [TerminalRule(runner, frame)])
  }

  function AllProbes(runner: nat, probes: seq<seq<Byte>>): seq<Rule> {
    if probes == [] then []
    else
      var n := |probes| - 1;
      AllProbes(runner, probes[..n]) + ProbeRules(runner, n, probes[n])
  }

  function Fallback(hook: Hook): Rule { Rule(Bridge, hook, [Counter, Drop]) }

  function Fallbacks(): seq<Rule> { [Fallback(Prerouting), Fallback(Input), Fallback(Forward), Fallback(Output)] }

  function Instrumented(base: seq<Rule>, probes: seq<seq<Byte>>, runner: nat): seq<Rule>
    requires BaseRules(base)
  {
    AllProbes(runner, probes) + CountAll(base) + Fallbacks()
  }

  // ----- each rule, for one packet -----

  lemma {:induction false} ChunksMean(frame: seq<Byte>, start: nat, p: Packet)
    ensures AllMatches(ChunkMatches(frame, start))
    ensures AllHold(p, ChunkMatches(frame, start)) <==>
            (start < |frame| ==> |frame| <= |p.raw| && p.raw[start..|frame|] == frame[start..])
    decreases |frame| - start
  {
    if start < |frame| {
      ChunksMean(frame, start + CHUNK, p);
      var end := Min(start + CHUNK, |frame|);
      AllHoldCons(p, RawBytes(start, frame[start..end]), ChunkMatches(frame, start + CHUNK));
      assert frame[start..] == frame[start..end] + frame[end..];
      if |frame| <= |p.raw| {
        assert p.raw[start..|frame|] == p.raw[start..end] + p.raw[end..|frame|];
      }
    }
  }

  predicate Matches(p: Packet, runner: nat, frame: seq<Byte>) {
    p.field(IifIndex) == runner && frame <= p.raw
  }

  /** A probe rule matches the packets that came in at the runner's port and begin with the frame. */
  lemma ProbeMeans(runner: nat, frame: seq<Byte>, p: Packet)
    ensures RunRule(IngressRule(runner, frame).exprs, p) == Outcome(Matches(p, runner, frame), None)
    ensures RunRule(TerminalRule(runner, frame).exprs, p) ==
            if Matches(p, runner, frame) then Outcome(true, Some(Dropped)) else Outcome(false, None)
  {
    var ms := ProbeMatches(runner, frame);
    ChunksMean(frame, 0, p);
    assert frame[0..] == frame && (|frame| <= |p.raw| ==> p.raw[0..|frame|] == p.raw[..|frame|]);
    AllHoldCons(p, Equals(IifIndex, runner), ChunkMatches(frame, 0));
    RunMatches(ms, [Counter], p);
    RunMatches(ms, [Counter, Drop], p);
    assert [Counter][1..] == [] && [Counter, Drop][1..] == [Drop];
  }

  lemma CountedMeans(r: Rule, p: Packet)
    requires BaseRule(r)
    ensures var before, after := RunRule(r.exprs, p), RunRule(CountRule(r).exprs, p);
            after.verdict == before.verdict && after.counted == before.verdict.Some?
  {
    var n := |r.exprs| - 1;
    var front, verdict := r.exprs[..n], r.exprs[n];
    assert r.exprs == front + [verdict];
    assert CountRule(r).exprs == front + [Counter, verdict];
    RunMatches(front, [verdict], p);
    RunMatches(front, [Counter, verdict], p);
    assert [Counter, verdict][1..] == [verdict];
  }

  // ----- meaning -----

  lemma {:induction false} CountedWalk(base: seq<Rule>, family: Family, hook: Hook, p: Packet, m: nat, n: nat)
    requires BaseRules(base)
    ensures Walk(CountAll(base), family, hook, p, n).verdict == Walk(base, family, hook, p, m).verdict
    ensures Walk(base, family, hook, p, m).verdict.None? ==> Walk(CountAll(base), family, hook, p, n).hits == {}
    decreases |base|
  {
    if base != [] {
      var rest := base[1..];
      assert forall i | 0 <= i < |rest| :: rest[i] == base[i + 1];
      CountedWalk(rest, family, hook, p, m + 1, n + 1);
      assert BaseRule(base[0]);
      CountedMeans(base[0], p);
      assert CountAll(base)[1..] == CountAll(rest);
    }
  }

  /** Some negative probe matches. */
  predicate Probed(p: Packet, runner: nat, probes: seq<seq<Byte>>) {
    exists i | 1 <= i < |probes| :: Matches(p, runner, probes[i])
  }

  /** Both rules of one negative probe, or the single rule of the allowed one. */
  lemma ProbeRulesWalk(runner: nat, index: nat, frame: seq<Byte>, hook: Hook, p: Packet, n: nat)
    ensures Walk(ProbeRules(runner, index, frame), Bridge, Prerouting, p, n) ==
            if !Matches(p, runner, frame) then Path(None, {})
            else if index == 0 then Path(None, {n})
            else Path(Some(Dropped), {n, n + 1})
    ensures hook != Prerouting ==> Walk(ProbeRules(runner, index, frame), Bridge, hook, p, n) == Path(None, {})
    ensures Walk(ProbeRules(runner, index, frame), Inet, hook, p, n) == Path(None, {})
  {
    var a, b := IngressRule(runner, frame), TerminalRule(runner, frame);
    ProbeMeans(runner, frame, p);
    hide RunRule, Matches;
    var two := if index == 0 then [] else [b];
    assert [b] == [b] + [];
    WalkCons(b, [], Bridge, Prerouting, p, n + 1);
    WalkCons(a, two, Bridge, Prerouting, p, n);
    WalkCons(b, [], Bridge, hook, p, n + 1);
    WalkCons(a, two, Bridge, hook, p, n);
    WalkCons(b, [], Inet, hook, p, n + 1);
    WalkCons(a, two, Inet, hook, p, n);
  }

  function Position(index: nat): nat { if index == 0 then 0 else 2 * index - 1 }

  lemma {:induction false} ProbeCount(runner: nat, probes: seq<seq<Byte>>)
    ensures |AllProbes(runner, probes)| == Position(|probes|)
    decreases |probes|
  {
    if probes != [] {
      ProbeCount(runner, probes[..|probes| - 1]);
    }
  }

  /** The probe rules drop exactly the packets some negative probe matches, and sit nowhere else. */
  lemma {:induction false} ProbeWalk(runner: nat, probes: seq<seq<Byte>>, hook: Hook, p: Packet)
    ensures Walk(AllProbes(runner, probes), Inet, hook, p, 0) == Path(None, {})
    ensures hook != Prerouting ==> Walk(AllProbes(runner, probes), Bridge, hook, p, 0) == Path(None, {})
    ensures Walk(AllProbes(runner, probes), Bridge, Prerouting, p, 0).verdict
            == if Probed(p, runner, probes) then Some(Dropped) else None
    decreases |probes|
  {
    hide Matches, ProbeRules;
    if probes != [] {
      var n := |probes| - 1;
      var front, next := AllProbes(runner, probes[..n]), ProbeRules(runner, n, probes[n]);
      ProbeWalk(runner, probes[..n], hook, p);
      ProbeRulesWalk(runner, n, probes[n], hook, p, |front|);
      WalkSplits(front, next, Bridge, Prerouting, p, 0);
      WalkSplits(front, next, Bridge, hook, p, 0);
      WalkSplits(front, next, Inet, hook, p, 0);
      assert Probed(p, runner, probes) <==> Probed(p, runner, probes[..n]) || (n > 0 && Matches(p, runner, probes[n]));
    }
  }

  function HookIndex(hook: Hook): nat {
    match hook case Prerouting => 0 case Input => 1 case Forward => 2 case Output => 3
  }

  lemma FallbackPath(family: Family, hook: Hook, p: Packet, n: nat)
    ensures Walk(Fallbacks(), family, hook, p, n) ==
            if family == Bridge then Path(Some(Dropped), {n + HookIndex(hook)}) else Path(None, {})
  {
    assert [Counter, Drop][1..] == [Drop];
    assert RunRule([Counter, Drop], p) == Outcome(true, Some(Dropped));
    hide RunRule;
    var a, b, c, d := Fallback(Prerouting), Fallback(Input), Fallback(Forward), Fallback(Output);
    assert Fallbacks() == [a] + ([b] + ([c] + ([d] + [])));
    WalkCons(d, [], family, hook, p, n + 3);
    WalkCons(c, [d] + [], family, hook, p, n + 2);
    WalkCons(b, [c] + ([d] + []), family, hook, p, n + 1);
    WalkCons(a, [b] + ([c] + ([d] + [])), family, hook, p, n);
  }

  /** Instrumentation keeps the firewall's meaning: every packet gets the verdict it had before,
      except packets at the runner's port that begin with a negative probe frame, which bridge
      prerouting drops. */
  lemma MeaningPreserved(base: seq<Rule>, probes: seq<seq<Byte>>, runner: nat, family: Family, hook: Hook, p: Packet)
    requires BaseRules(base)
    ensures Judge(Instrumented(base, probes, runner), family, hook, p) ==
            if family == Bridge && hook == Prerouting && Probed(p, runner, probes) then Dropped
            else Judge(base, family, hook, p)
  {
    hide AllProbes, CountAll, Fallbacks, Probed, Walk;
    var head, counted, tail := AllProbes(runner, probes), CountAll(base), Fallbacks();
    WalkSplits(head + counted, tail, family, hook, p, 0);
    WalkSplits(head, counted, family, hook, p, 0);
    ProbeWalk(runner, probes, hook, p);
    CountedWalk(base, family, hook, p, 0, |head|);
    FallbackPath(family, hook, p, |head + counted|);
  }

  /** In particular nothing is accepted that the base dropped. */
  lemma NothingNewAccepted(base: seq<Rule>, probes: seq<seq<Byte>>, runner: nat, family: Family, hook: Hook, p: Packet)
    requires BaseRules(base) && Judge(Instrumented(base, probes, runner), family, hook, p) == Accepted
    ensures Judge(base, family, hook, p) == Accepted
  {
    MeaningPreserved(base, probes, runner, family, hook, p);
  }

  // ----- accounting -----

  predicate GivesVerdict(r: Rule) { r.exprs != [] && IsVerdict(r.exprs[|r.exprs| - 1]) }

  /** Matches, then a counter, then possibly a verdict: the only shapes the compiler emits. */
  predicate Counting(r: Rule) {
    var n := |r.exprs|;
    if GivesVerdict(r) then 2 <= n && r.exprs[n - 2] == Counter && AllMatches(r.exprs[..n - 2])
    else 1 <= n && r.exprs[n - 1] == Counter && AllMatches(r.exprs[..n - 1])
  }

  predicate AllCounting(rules: seq<Rule>) { forall i | 0 <= i < |rules| :: Counting(rules[i]) }

  /** In such a rule the counter moves exactly when the rule's verdict, if it has one, is given. */
  lemma CountingMeans(r: Rule, p: Packet)
    requires Counting(r)
    ensures var o := RunRule(r.exprs, p);
            if GivesVerdict(r) then o.counted == o.verdict.Some? else o.verdict.None?
  {
    var n := |r.exprs|;
    if GivesVerdict(r) {
      var front, tail := r.exprs[..n - 2], [Counter, r.exprs[n - 1]];
      assert r.exprs == front + tail && tail[1..] == [r.exprs[n - 1]];
      RunMatches(front, tail, p);
    } else {
      assert r.exprs == r.exprs[..n - 1] + [Counter];
      RunMatches(r.exprs[..n - 1], [Counter], p);
    }
  }

  lemma {:induction false} AllProbesCount(runner: nat, probes: seq<seq<Byte>>)
    ensures AllCounting(AllProbes(runner, probes))
    decreases |probes|
  {
    if probes != [] {
      var n := |probes| - 1;
      AllProbesCount(runner, probes[..n]);
      var ms := ProbeMatches(runner, probes[n]);
      ProbeMatchesAreMatches(runner, probes[n]);
      assert (ms + [Counter])[..|ms|] == ms && (ms + [Counter, Drop])[..|ms|] == ms;
    }
  }

  lemma ProbeMatchesAreMatches(runner: nat, frame: seq<Byte>)
    ensures AllMatches(ProbeMatches(runner, frame))
  {
    var p := Packet(f => 0, []);
    ChunksMean(frame, 0, p);
    AllHoldCons(p, Equals(IifIndex, runner), ChunkMatches(frame, 0));
  }

  lemma {:induction false} CountAllCounts(base: seq<Rule>)
    requires BaseRules(base)
    ensures AllCounting(CountAll(base))
    decreases |base|
  {
    if base != [] {
      var rest := base[1..];
      assert forall i | 0 <= i < |rest| :: rest[i] == base[i + 1];
      CountAllCounts(rest);
      var r, n := CountRule(base[0]), |base[0].exprs| - 1;
      assert BaseRule(base[0]) && r.exprs[..n] == base[0].exprs[..n];
      assert forall i | 0 < i < |base| :: CountAll(base)[i] == CountAll(rest)[i - 1];
    }
  }

  lemma InstrumentedCounts(base: seq<Rule>, probes: seq<seq<Byte>>, runner: nat)
    requires BaseRules(base)
    ensures AllCounting(Instrumented(base, probes, runner))
  {
    AllProbesCount(runner, probes);
    CountAllCounts(base);
    var head, counted, tail := AllProbes(runner, probes), CountAll(base), Fallbacks();
    assert AllCounting(tail);
    hide AllProbes, CountAll, Fallbacks, Counting;
    assert AllCounting(head + counted);
  }

  /** The verdict rules a packet's counters moved on: the one that decided, and no other. */
  lemma {:induction false} OneDecider(rules: seq<Rule>, hook: Hook, p: Packet, n: nat) returns (d: nat)
    requires AllCounting(rules)
    ensures var path := Walk(rules, Bridge, hook, p, n);
            if path.verdict.Some? then
              && n <= d < n + |rules| && d in path.hits && GivesVerdict(rules[d - n])
              && forall k | k in path.hits && k != d && n <= k < n + |rules| :: !GivesVerdict(rules[k - n])
            else forall k | k in path.hits && n <= k < n + |rules| :: !GivesVerdict(rules[k - n])
    decreases |rules|
  {
    hide RunRule, GivesVerdict, Counting;
    d := n;
    if rules != [] {
      var rest := rules[1..];
      assert forall i | 0 <= i < |rest| :: rest[i] == rules[i + 1];
      var e := OneDecider(rest, hook, p, n + 1);
      HitsAreInRange(rest, Bridge, hook, p, n + 1);
      assert Counting(rules[0]);
      CountingMeans(rules[0], p);
      if !(InChain(rules[0], Bridge, hook) && RunRule(rules[0].exprs, p).verdict.Some?) {
        d := e;
      }
    }
  }

  /** Packets at bridge hooks, oldest first. */
  type Traffic = seq<(Hook, Packet)>

  predicate Moves(rules: seq<Rule>, e: (Hook, Packet), k: nat) { k in Walk(rules, Bridge, e.0, e.1, 0).hits }

  /** A counter after some traffic; `weigh` is 1 for its packets and the length for its bytes. */
  function Tally(rules: seq<Rule>, traffic: Traffic, k: nat, weigh: Packet -> nat): nat {
    if traffic == [] then 0
    else
      var e := traffic[|traffic| - 1];
      Tally(rules, traffic[..|traffic| - 1], k, weigh) + (if Moves(rules, e, k) then weigh(e.1) else 0)
  }

  predicate Decisive(rules: seq<Rule>, hook: Hook, k: nat)
    requires k < |rules|
  {
    InChain(rules[k], Bridge, hook) && GivesVerdict(rules[k])
  }

  /** Sum of the allow, guard, terminal and fallback counters of one chain, among the first `n` rules. */
  function ChainTotal(rules: seq<Rule>, traffic: Traffic, hook: Hook, n: nat, weigh: Packet -> nat): nat
    requires n <= |rules|
  {
    if n == 0 then 0
    else
      ChainTotal(rules, traffic, hook, n - 1, weigh)
      + (if Decisive(rules, hook, n - 1) then Tally(rules, traffic, n - 1, weigh) else 0)
  }

  function Entered(traffic: Traffic, hook: Hook, weigh: Packet -> nat): nat {
    if traffic == [] then 0
    else
      var e := traffic[|traffic| - 1];
      Entered(traffic[..|traffic| - 1], hook, weigh) + (if e.0 == hook then weigh(e.1) else 0)
  }

  lemma {:induction false} TotalStep(rules: seq<Rule>, traffic: Traffic, e: (Hook, Packet), d: nat, hook: Hook, n: nat, weigh: Packet -> nat)
    requires n <= |rules| && d < |rules|
    requires forall k | 0 <= k < |rules| :: Moves(rules, e, k) && Decisive(rules, hook, k) <==> e.0 == hook && k == d
    ensures ChainTotal(rules, traffic + [e], hook, n, weigh)
            == ChainTotal(rules, traffic, hook, n, weigh) + (if e.0 == hook && d < n then weigh(e.1) else 0)
    decreases n
  {
    hide Moves, Decisive;
    assert (traffic + [e])[..|traffic|] == traffic;
    if n != 0 {
      TotalStep(rules, traffic, e, d, hook, n - 1, weigh);
    }
  }

  lemma DeciderOf(base: seq<Rule>, probes: seq<seq<Byte>>, runner: nat, e: (Hook, Packet), hook: Hook) returns (d: nat)
    requires BaseRules(base)
    ensures var rules := Instrumented(base, probes, runner);
            && d < |rules|
            && forall k | 0 <= k < |rules| :: Moves(rules, e, k) && Decisive(rules, hook, k) <==> e.0 == hook && k == d
  {
    var rules, head := Instrumented(base, probes, runner), AllProbes(runner, probes) + CountAll(base);
    InstrumentedCounts(base, probes, runner);
    assert rules == head + Fallbacks();
    WalkSplits(head, Fallbacks(), Bridge, e.0, e.1, 0);
    FallbackPath(Bridge, e.0, e.1, |head|);
    hide Instrumented, Walk, AllProbes, CountAll, Fallbacks, GivesVerdict, AllCounting;
    d := OneDecider(rules, e.0, e.1, 0);
    HitsAreInRange(rules, Bridge, e.0, e.1, 0);
  }

  /** Conservation, for every stream of packets and for packets and bytes alike: what entered a
      bridge chain is what its verdict counters counted. */
  lemma {:induction false} Conservation(base: seq<Rule>, probes: seq<seq<Byte>>, runner: nat, traffic: Traffic, hook: Hook, weigh: Packet -> nat)
    requires BaseRules(base)
    ensures var rules := Instrumented(base, probes, runner);
            ChainTotal(rules, traffic, hook, |rules|, weigh) == Entered(traffic, hook, weigh)
    decreases |traffic|
  {
    hide Instrumented, Moves, Decisive;
    var rules := Instrumented(base, probes, runner);
    if traffic == [] {
      EmptyTotal(rules, hook, |rules|, weigh);
    } else {
      var front, e := traffic[..|traffic| - 1], traffic[|traffic| - 1];
      Conservation(base, probes, runner, front, hook, weigh);
      var d := DeciderOf(base, probes, runner, e, hook);
      TotalStep(rules, front, e, d, hook, |rules|, weigh);
      assert traffic == front + [e];
    }
  }

  lemma {:induction false} EmptyTotal(rules: seq<Rule>, hook: Hook, n: nat, weigh: Packet -> nat)
    requires n <= |rules|
    ensures ChainTotal(rules, [], hook, n, weigh) == 0
    decreases n
  {
    if n != 0 {
      EmptyTotal(rules, hook, n - 1, weigh);
    }
  }

  // ----- one probe -----

  predicate Clear(p: Packet, runner: nat, probes: seq<seq<Byte>>) {
    forall j | 0 <= j < |probes| :: !Matches(p, runner, probes[j])
  }

  /** The counters a packet moves among the first probe rules, when none of them matches it. */
  lemma {:induction false} ClearWalk(runner: nat, probes: seq<seq<Byte>>, p: Packet)
    ensures Walk(AllProbes(runner, probes), Bridge, Prerouting, p, 0).hits == {} <==> Clear(p, runner, probes)
    ensures Clear(p, runner, probes) ==> Walk(AllProbes(runner, probes), Bridge, Prerouting, p, 0).verdict.None?
    decreases |probes|
  {
    hide Matches, ProbeRules;
    if probes != [] {
      var n := |probes| - 1;
      var front, next := AllProbes(runner, probes[..n]), ProbeRules(runner, n, probes[n]);
      ClearWalk(runner, probes[..n], p);
      ProbeWalk(runner, probes[..n], Prerouting, p);
      ProbeRulesWalk(runner, n, probes[n], Prerouting, p, |front|);
      WalkSplits(front, next, Bridge, Prerouting, p, 0);
      assert Clear(p, runner, probes) <==> Clear(p, runner, probes[..n]) && !Matches(p, runner, probes[n]);
      if Probed(p, runner, probes[..n]) {
        var i :| 1 <= i < n && Matches(p, runner, probes[..n][i]);
        assert !Clear(p, runner, probes[..n]);
      }
    }
  }

  lemma {:induction false} ProbesPrefix(runner: nat, probes: seq<seq<Byte>>, k: nat)
    requires k <= |probes|
    ensures AllProbes(runner, probes[..k]) <= AllProbes(runner, probes)
    decreases |probes|
  {
    if k == |probes| {
      assert probes[..k] == probes;
    } else {
      var front := probes[..|probes| - 1];
      assert front[..k] == probes[..k];
      ProbesPrefix(runner, front, k);
    }
  }

  /** Sending exactly negative probe `i` moves its own ingress and terminal counters and no other,
      if and only if no earlier probe frame is a prefix of it. */
  lemma NegativeProbeExact(base: seq<Rule>, probes: seq<seq<Byte>>, runner: nat, i: nat, p: Packet)
    requires BaseRules(base) && 1 <= i < |probes| && p.field(IifIndex) == runner && p.raw == probes[i]
    ensures var path := Walk(Instrumented(base, probes, runner), Bridge, Prerouting, p, 0);
            path.hits == {Position(i), Position(i) + 1} <==> forall j | 0 <= j < i :: !(probes[j] <= probes[i])
  {
    var upto := probes[..i + 1];
    var front, next := AllProbes(runner, probes[..i]), ProbeRules(runner, i, probes[i]);
    assert upto[..i] == probes[..i];
    assert AllProbes(runner, upto) == front + next;
    ProbesPrefix(runner, probes, i + 1);
    var all := Instrumented(base, probes, runner);
    var tail := all[|front + next|..];
    assert all == (front + next) + tail;
    hide Instrumented, AllProbes, ProbeRules;
    ProbeCount(runner, probes[..i]);
    ClearWalk(runner, probes[..i], p);
    ProbeRulesWalk(runner, i, probes[i], Prerouting, p, |front|);
    WalkSplits(front + next, tail, Bridge, Prerouting, p, 0);
    WalkSplits(front, next, Bridge, Prerouting, p, 0);
    HitsAreInRange(front, Bridge, Prerouting, p, 0);
    assert Clear(p, runner, probes[..i]) <==> forall j | 0 <= j < i :: !(probes[j] <= probes[i]);
  }

  /** Three probes, the last of which extends the one before it. */
  const NESTED: seq<seq<Byte>> := [[9], [1], [1, 2]]

  /** With them the last probe, sent alone, does not move exactly its own two counters, whatever the base. */
  lemma NestedProbesMiscount(base: seq<Rule>, runner: nat, p: Packet)
    requires BaseRules(base) && p.field(IifIndex) == runner && p.raw == [1, 2]
    ensures Walk(Instrumented(base, NESTED, runner), Bridge, Prerouting, p, 0).hits != {Position(2), Position(2) + 1}
  {
    hide Instrumented, Walk;
    assert NESTED[1] == [1] && NESTED[2] == [1, 2] && NESTED[1] <= NESTED[2];
    NegativeProbeExact(base, NESTED, runner, 2, p);
  }

  // ----- the compiler -----

  function PurposeOf(base: Rule): Purpose
    requires BaseRule(base)
  {
    if base.exprs[|base.exprs| - 1] == Accept then Allow else GuardDrop
  }

  /** A spec points at the one counter of its rule, and its purpose says what that rule does. */
  predicate Describes(spec: Spec, rules: seq<Rule>, header: nat) {
    && header <= spec.command < header + |rules|
    && var r := rules[spec.command - header];
       && spec.expression < |r.exprs| && r.exprs[spec.expression] == Counter
       && (spec.purpose == Ingress <==> spec.expression == |r.exprs| - 1)
       && (spec.purpose == Allow ==> r.exprs[|r.exprs| - 1] == Accept)
       && (spec.purpose in {GuardDrop, TerminalDrop, FallbackDrop} ==> r.exprs[|r.exprs| - 1] == Drop)
       && (spec.probe.Some? <==> spec.purpose in {Ingress, TerminalDrop})
  }

  /** Raw comparisons of one probe frame, piece by piece. */
  method Chunked(frame: seq<Byte>) returns (exprs: seq<Expr>)
    ensures exprs == ChunkMatches(frame, 0)
  {
    exprs := [];
    var start := 0;
    while start < |frame|
      invariant exprs + ChunkMatches(frame, start) == ChunkMatches(frame, 0)
      decreases |frame| - start
    {
      exprs := exprs + [RawBytes(start, frame[start..Min(start + CHUNK, |frame|)])];
      start := start + CHUNK;
    }
  }

  /** `header` commands declare tables and chains before the first rule.  Specs come out in command
      order, one per rule. */
  method CompileCounterRules(base: seq<Rule>, header: nat, probes: seq<seq<Byte>>, runner: nat, active: bool)
    returns (rules: seq<Rule>, specs: seq<Spec>)
    requires BaseRules(base)
    ensures rules == Instrumented(base, if active then probes else [], runner)
    ensures |specs| == |rules| && forall k | 0 <= k < |specs| :: specs[k].command == header + k && Describes(specs[k], rules, header)
  {
    hide Labelled, Describes, AllProbes, CountAll;
    var counted, purposes := CountBase(base);
    var extra, extraPurposes := [], [];
    if active {
      extra, extraPurposes := CompileProbes(probes, runner);
    } else {
      NoProbes(runner);
    }
    rules, purposes := extra + counted, extraPurposes + purposes;
    var i := 0;
    while i < 4
      invariant 0 <= i <= 4 && rules == extra + counted + Fallbacks()[..i] && |purposes| == |rules|
      invariant forall k | 0 <= k < |rules| :: Labelled(rules[k], purposes[k])
    {
      FallbackIsLabelled(HOOKS[i]);
      rules := rules + [Rule(Bridge, HOOKS[i], [Counter, Drop])];
      purposes := purposes + [(0, FallbackDrop, None)];
      i := i + 1;
    }
    specs := Number(rules, purposes, header);
  }

  lemma NoProbes(runner: nat)
    ensures AllProbes(runner, []) == []
  {
  }

  lemma FallbackIsLabelled(hook: Hook)
    ensures Labelled(Rule(Bridge, hook, [Counter, Drop]), (0, FallbackDrop, None))
  {
  }

  method CountBase(base: seq<Rule>) returns (counted: seq<Rule>, purposes: seq<(nat, Purpose, Option<nat>)>)
    requires BaseRules(base)
    ensures counted == CountAll(base) && |purposes| == |counted|
    ensures forall k | 0 <= k < |counted| :: Labelled(counted[k], purposes[k])
  {
    counted, purposes := [], [];
    var i := 0;
    while i < |base|
      invariant 0 <= i <= |base| && counted == CountAll(base)[..i] && |purposes| == i
      invariant forall k | 0 <= k < i :: Labelled(counted[k], purposes[k])
    {
      var rule := base[i];
      assert BaseRule(rule);
      CountAllAt(base, i);
      var at := |rule.exprs| - 1;
      counted := counted + [rule.(exprs := rule.exprs[..at] + [Counter] + [rule.exprs[at]])];
      purposes := purposes + [(at, PurposeOf(rule), None)];
      i := i + 1;
    }
  }

  method Number(rules: seq<Rule>, purposes: seq<(nat, Purpose, Option<nat>)>, header: nat) returns (specs: seq<Spec>)
    requires |purposes| == |rules| && forall k | 0 <= k < |rules| :: Labelled(rules[k], purposes[k])
    ensures |specs| == |rules| && forall k | 0 <= k < |specs| :: specs[k].command == header + k && Describes(specs[k], rules, header)
  {
    specs := [];
    var i := 0;
    while i < |rules|
      invariant 0 <= i <= |rules| && |specs| == i
      invariant forall k | 0 <= k < i :: specs[k].command == header + k && Describes(specs[k], rules, header)
    {
      var item := purposes[i];
      assert Labelled(rules[i], item);
      specs := specs + [Spec(header + i, item.0, item.1, item.2)];
      i := i + 1;
    }
  }

  /** The purpose noted for a rule while it is built. */
  predicate Labelled(r: Rule, note: (nat, Purpose, Option<nat>)) {
    Describes(Spec(0, note.0, note.1, note.2), [r], 0)
  }

  lemma {:induction false} CountAllAt(base: seq<Rule>, i: nat)
    requires BaseRules(base) && i < |base|
    ensures CountAll(base)[i] == CountRule(base[i])
    decreases i
  {
    if i > 0 {
      var rest := base[1..];
      assert forall k | 0 <= k < |rest| :: rest[k] == base[k + 1];
      CountAllAt(rest, i - 1);
    }
  }

  method CompileProbes(probes: seq<seq<Byte>>, runner: nat)
    returns (extra: seq<Rule>, purposes: seq<(nat, Purpose, Option<nat>)>)
    ensures extra == AllProbes(runner, probes) && |purposes| == |extra|
    ensures forall k | 0 <= k < |extra| :: Labelled(extra[k], purposes[k])
  {
    extra, purposes := [], [];
    var index := 0;
    while index < |probes|
      invariant 0 <= index <= |probes| && extra == AllProbes(runner, probes[..index]) && |purposes| == |extra|
      invariant forall k | 0 <= k < |extra| :: Labelled(extra[k], purposes[k])
    {
      var chunks := Chunked(probes[index]);
      var expr := [Equals(IifIndex, runner)] + chunks;
      assert probes[..index + 1][..index] == probes[..index];
      extra := extra + [Rule(Bridge, Prerouting, expr + [Counter])];
      purposes := purposes + [(|expr|, Ingress, Some(index))];
      if index != 0 {
        extra := extra + [Rule(Bridge, Prerouting, expr + [Counter, Drop])];
        purposes := purposes + [(|expr|, TerminalDrop, Some(index))];
      }
      index := index + 1;
    }
    assert probes[..index] == probes;
  }
}
