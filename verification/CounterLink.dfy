/**
Where the compiler and the verifier of counters meet: what one negative probe does to the counters
of the instrumented rules is what `_sample` demands of a reading before and after it.
*/
module CounterLink {
  import opened Base
  import opened Firewall
  import opened CounterRules
  import opened CounterEvidence

  /** The role of the k-th counter in command order, for `n` probes: the probes' own counters come first. */
  function ProbeRole(k: nat): Role {
    if k == 0 then IngressOf(0)
    else if k % 2 == 1 then IngressOf((k + 1) / 2)
    else TerminalOf(k / 2)
  }

  function Roles(n: nat, labels: seq<Role>): seq<Role> {
    seq(Position(n), k requires 0 <= k => ProbeRole(k)) + labels
  }

  predicate Unprobed(labels: seq<Role>) {
    forall k | 0 <= k < |labels| :: !labels[k].IngressOf? && !labels[k].TerminalOf?
  }

  /** The reading after one packet of `length` bytes moved the counters in `hits`. */
  predicate Moved(before: seq<Value>, after: seq<Value>, hits: set<nat>, length: nat) {
    |after| == |before| && forall k: nat | k < |before| ::
      after[k] == if k in hits then Value(before[k].packets + 1, before[k].bytes + length) else before[k]
  }

  lemma RoleOfProbe(wire: Wire, n: nat, labels: seq<Role>, i: nat, k: nat, s: Sample)
    requires 1 <= i < n && Unprobed(labels) && k < |Roles(n, labels)|
    ensures Planned(wire, Roles(n, labels)[k], i, s)
            == if k == Position(i) || k == Position(i) + 1 then Value(1, FrameLength(wire, i)) else Value(0, 0)
  {
  }

  lemma DeltasMean(wire: Wire, n: nat, labels: seq<Role>, i: nat, s: Sample, hits: set<nat>)
    requires 1 <= i < n && Unprobed(labels) && |s.before| == |Roles(n, labels)|
    requires Moved(s.before, s.after, hits, FrameLength(wire, i)) && forall k | k in hits :: k < |s.before|
    ensures ExactDeltas(wire, Roles(n, labels), i, s) <==> hits == {Position(i), Position(i) + 1}
  {
    var roles := Roles(n, labels);
    forall k | 0 <= k < |roles|
      ensures Planned(wire, roles[k], i, s) == if k == Position(i) || k == Position(i) + 1 then Value(1, FrameLength(wire, i)) else Value(0, 0)
    {
      RoleOfProbe(wire, n, labels, i, k, s);
    }
    assert Position(i) + 1 < |roles|;
    hide Planned, Position, Roles;
    if ExactDeltas(wire, roles, i, s) {
      forall k: nat | k < |roles|
        ensures k in hits <==> k == Position(i) || k == Position(i) + 1
      {
        assert s.after[k].packets - s.before[k].packets == Planned(wire, roles[k], i, s).packets;
      }
      assert hits == {Position(i), Position(i) + 1};
    }
  }

  /** One negative probe passes the verifier's exact-change check if and only if no earlier probe
      frame is a prefix of it. */
  lemma SampleDemand(wire: Wire, base: seq<Rule>, probes: seq<seq<Byte>>, runner: nat, i: nat, p: Packet, labels: seq<Role>, s: Sample)
    requires BaseRules(base) && 1 <= i < |probes| && p.field(IifIndex) == runner && p.raw == probes[i]
    requires |labels| == |base| + 4 && Unprobed(labels) && wire.frames == probes
    requires |s.before| == |Instrumented(base, probes, runner)|
    requires Moved(s.before, s.after, Walk(Instrumented(base, probes, runner), Bridge, Prerouting, p, 0).hits, |p.raw|)
    ensures ExactDeltas(wire, Roles(|probes|, labels), i, s) <==> forall j | 0 <= j < i :: !(probes[j] <= probes[i])
  {
    var rules := Instrumented(base, probes, runner);
    ProbeCount(runner, probes);
    var roles := Roles(|probes|, labels);
    assert |rules| == |roles|;
    hide Instrumented, Roles, ExactDeltas, Moved;
    NegativeProbeExact(base, probes, runner, i, p);
    HitsAreInRange(rules, Bridge, Prerouting, p, 0);
    DeltasMean(wire, |probes|, labels, i, s, Walk(rules, Bridge, Prerouting, p, 0).hits);
  }
}
