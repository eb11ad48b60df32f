/**
The rules an approval installs: the egress template with an EtherType match in front of every bridge
rule, and what that template, once instrumented, lets through and counts for the permitted probe.
*/
module ApprovedRules {
  import opened Base
  import opened Firewall
  import opened Egress
  import opened CounterRules
  import CounterEvidence
  import CounterLink

  predicate ArpField(f: Field) { f.ArpOperation? || f.ArpSaddrEther? || f.ArpSaddrIp? || f.ArpDaddrIp? }

  predicate NamesArp(exprs: seq<Expr>) { exists i | 0 <= i < |exprs| :: exprs[i].Equals? && ArpField(exprs[i].field) }

  function TypeOf(r: Rule): nat { if NamesArp(r.exprs) then ETHER_ARP else ETHER_IP }

  function Typed(r: Rule): Rule {
    if r.family == Bridge then r.(exprs := [Equals(EtherType, TypeOf(r))] + r.exprs) else r
  }

  function TypedAll(rules: seq<Rule>): seq<Rule> { seq(|rules|, i requires 0 <= i < |rules| => Typed(rules[i])) }

  /** No ports means the bootstrap rules. */
  function Approved(net: Network, ports: seq<Port>): Result<seq<Rule>, Denial> {
    match CompileRules(net, ports)
    case Err(reason) => Err(reason)
    case Ok(rules) => Ok(TypedAll(rules))
  }

  method ApprovedRules(net: Network, ports: seq<Port>) returns (r: Result<seq<Rule>, Denial>)
    ensures r == Approved(net, ports)
  {
    hide CompileRules, NamesArp;
    var compiled := RenderRules(net, ports);
    if compiled.Err? {
      return Err(compiled.error);
    }
    var plain := compiled.value;
    var rules, i := plain, 0;
    while i < |rules|
      invariant 0 <= i <= |rules| == |plain|
      invariant forall k | 0 <= k < i :: rules[k] == Typed(plain[k])
      invariant forall k | i <= k < |plain| :: rules[k] == plain[k]
    {
      if rules[i].family == Bridge {
        rules := rules[i := rules[i].(exprs := [Equals(EtherType, TypeOf(rules[i]))] + rules[i].exprs)];
      }
      i := i + 1;
    }
    assert rules == TypedAll(plain);
    return Ok(rules);
  }

  // ----- the type match changes no verdict -----

  /** Whatever holds of all the rule's matches implies its type. */
  lemma TypeIsImplied(source: Port, dest: Port, response: bool, operation: nat, hook: Hook, p: Packet)
    ensures TypeOf(AtHook(hook, TcpMatches(source, dest, response), dest)) == ETHER_IP
    ensures TypeOf(AtHook(hook, ArpMatches(source, dest, operation), dest)) == ETHER_ARP
    ensures AllHold(p, TcpMatches(source, dest, response)) ==> p.field(EtherType) == ETHER_IP
    ensures AllHold(p, ArpMatches(source, dest, operation)) ==> p.field(EtherType) == ETHER_ARP
  {
    var arp := ArpMatches(source, dest, operation);
    assert AtHook(hook, arp, dest).exprs[2] == Equals(ArpOperation, operation);
    if AllHold(p, arp) {
      assert Holds(p, arp[2]);
    }
    TcpMeans(source, dest, response, p);
  }

  lemma TypedRuleMeans(hook: Hook, matches: seq<Expr>, dest: Port, p: Packet)
    requires AllMatches(matches) && (AllHold(p, matches) ==> p.field(EtherType) == TypeOf(AtHook(hook, matches, dest)))
    ensures var r := AtHook(hook, matches, dest);
            && RunRule(Typed(r).exprs, p).verdict == RunRule(r.exprs, p).verdict
            && BaseRule(Typed(r)) && Typed(r).family == Bridge && Typed(r).hook == hook
  {
    var r := AtHook(hook, matches, dest);
    var way := if hook == Forward then [Equals(OifName, dest.iface)] else [];
    RuleMeans(hook, matches, dest, p);
    RunMatches([Equals(EtherType, TypeOf(r))], r.exprs, p);
    var front := [Equals(EtherType, TypeOf(r))] + matches + way;
    assert Typed(r).exprs == front + [Accept] && Typed(r).exprs[..|front|] == front;
  }

  predicate SameVerdicts(a: seq<Rule>, b: seq<Rule>, p: Packet) {
    && |a| == |b|
    && forall i | 0 <= i < |a| ::
         a[i].family == b[i].family && a[i].hook == b[i].hook && RunRule(a[i].exprs, p).verdict == RunRule(b[i].exprs, p).verdict
  }

  lemma {:induction false} SameWalk(a: seq<Rule>, b: seq<Rule>, family: Family, hook: Hook, p: Packet, n: nat)
    requires SameVerdicts(a, b, p)
    ensures Walk(a, family, hook, p, n).verdict == Walk(b, family, hook, p, n).verdict
    decreases |a|
  {
    if a != [] {
      hide RunRule;
      SameWalk(a[1..], b[1..], family, hook, p, n + 1);
    }
  }

  /** Typing the rule keeps its verdict and its shape. */
  predicate Unchanged(r: Rule, p: Packet) {
    && RunRule(Typed(r).exprs, p).verdict == RunRule(r.exprs, p).verdict && BaseRule(Typed(r))
    && Typed(r).family == r.family && Typed(r).hook == r.hook
  }

  lemma TcpUnchanged(source: Port, dest: Port, response: bool, hook: Hook, p: Packet)
    ensures Unchanged(AtHook(hook, TcpMatches(source, dest, response), dest), p)
  {
    TcpMeans(source, dest, response, p);
    TypeIsImplied(source, dest, response, ARP_REQUEST, hook, p);
    hide TcpMatches;
    TypedRuleMeans(hook, TcpMatches(source, dest, response), dest, p);
  }

  lemma ArpUnchanged(source: Port, dest: Port, operation: nat, hook: Hook, p: Packet)
    ensures Unchanged(AtHook(hook, ArpMatches(source, dest, operation), dest), p)
  {
    ArpMeans(source, dest, operation, p);
    TypeIsImplied(source, dest, false, operation, hook, p);
    hide ArpMatches;
    TypedRuleMeans(hook, ArpMatches(source, dest, operation), dest, p);
  }

  predicate AllUnchanged(rules: seq<Rule>, p: Packet) { forall i | 0 <= i < |rules| :: Unchanged(rules[i], p) }

  lemma DirectionUnchanged(source: Port, dest: Port, response: bool, p: Packet)
    ensures AllUnchanged(Direction(source, dest, response), p)
  {
    hide TcpMatches, ArpMatches, AtHook, Unchanged;
    var rules := Direction(source, dest, response);
    forall i | 0 <= i < |rules|
      ensures Unchanged(rules[i], p)
    {
      var hook := if i % 2 == 0 then Prerouting else Forward;
      if i < 2 {
        TcpUnchanged(source, dest, response, hook, p);
      } else {
        ArpUnchanged(source, dest, if i < 4 then ARP_REQUEST else ARP_REPLY, hook, p);
      }
    }
  }

  lemma HostUnchanged(p: Packet)
    ensures AllUnchanged(HostRules(), p)
  {
  }

  lemma UnchangedMeans(rules: seq<Rule>, p: Packet)
    requires AllUnchanged(rules, p)
    ensures SameVerdicts(TypedAll(rules), rules, p) && BaseRules(TypedAll(rules))
  {
    hide Typed, RunRule, BaseRule;
  }

  lemma TypedTemplate(net: Network, target: Port, runner: Port, p: Packet)
    requires CompileRules(net, [target, runner]).Ok?
    ensures var rules := CompileRules(net, [target, runner]).value;
            BaseRules(TypedAll(rules)) && SameVerdicts(TypedAll(rules), rules, p)
  {
    var rules := HostRules() + Direction(runner, target, false) + Direction(target, runner, true);
    HostUnchanged(p);
    DirectionUnchanged(runner, target, false, p);
    DirectionUnchanged(target, runner, true, p);
    assert CompileRules(net, [target, runner]).value == rules;
    hide HostRules, Direction, Unchanged;
    UnchangedMeans(rules, p);
  }

  /** End to end, for every frame: what is installed with its counters passes prerouting and forward if
      and only if it is permitted and no negative probe of the runner's port. */
  lemma ApprovedExact(net: Network, target: Port, runner: Port, probes: seq<seq<Byte>>, p: Packet)
    requires Approved(net, [target, runner]).Ok?
    ensures var base := Approved(net, [target, runner]).value;
            && BaseRules(base)
            && (var rules := Instrumented(base, probes, runner.ifindex);
                Judge(rules, Bridge, Prerouting, p) == Accepted && Judge(rules, Bridge, Forward, p) == Accepted
                <==> Permitted(p, target, runner) && !Probed(p, runner.ifindex, probes))
  {
    var rules := CompileRules(net, [target, runner]).value;
    TypedTemplate(net, target, runner, p);
    var base := TypedAll(rules);
    hide CompileRules, Instrumented, TypedAll, Permitted, Probed;
    SameWalk(base, rules, Bridge, Prerouting, p, 0);
    SameWalk(base, rules, Bridge, Forward, p, 0);
    TwoPortsExact(net, target, runner, p);
    MeaningPreserved(base, probes, runner.ifindex, Bridge, Prerouting, p);
    MeaningPreserved(base, probes, runner.ifindex, Bridge, Forward, p);
  }

  // ----- the permitted probe -----

  /** In counted rules, the first rule of the chain that decides is the only one whose counter moves. */
  lemma {:induction false} FirstDecides(base: seq<Rule>, hook: Hook, p: Packet, n: nat, d: nat)
    requires BaseRules(base) && d < |base| && InChain(base[d], Bridge, hook) && RunRule(base[d].exprs, p).verdict.Some?
    requires forall i | 0 <= i < d && InChain(base[i], Bridge, hook) :: RunRule(base[i].exprs, p).verdict.None?
    ensures Walk(CountAll(base), Bridge, hook, p, n) == Path(RunRule(base[d].exprs, p).verdict, {n + d})
    decreases |base|
  {
    var rest := base[1..];
    assert forall i | 0 <= i < |rest| :: rest[i] == base[i + 1];
    assert BaseRule(base[0]) && CountAll(base)[1..] == CountAll(rest);
    CountedMeans(base[0], p);
    if d > 0 {
      FirstDecides(rest, hook, p, n + 1, d - 1);
    }
  }

  /** A frame that is probe 0 and no negative probe moves only ingress 0 among the probe rules. */
  lemma {:induction false} PermittedProbeWalk(runner: nat, probes: seq<seq<Byte>>, p: Packet)
    requires probes != [] && Matches(p, runner, probes[0]) && !Probed(p, runner, probes)
    ensures Walk(AllProbes(runner, probes), Bridge, Prerouting, p, 0) == Path(None, {0})
    decreases |probes|
  {
    var n := |probes| - 1;
    var front, next := AllProbes(runner, probes[..n]), ProbeRules(runner, n, probes[n]);
    ProbeRulesWalk(runner, n, probes[n], Prerouting, p, |front|);
    WalkSplits(front, next, Bridge, Prerouting, p, 0);
    if n > 0 {
      assert !Probed(p, runner, probes[..n]) by {
        assert forall i | 1 <= i < n :: probes[..n][i] == probes[i];
      }
      assert !Matches(p, runner, probes[n]);
      PermittedProbeWalk(runner, probes[..n], p);
    }
    hide Matches, Probed;
  }

  /** Where an approved rule decides the way of a frame through one hook. */
  lemma CountedHit(base: seq<Rule>, probes: seq<seq<Byte>>, runner: nat, hook: Hook, p: Packet, d: nat, own: set<nat>)
    requires BaseRules(base) && d < |base| && InChain(base[d], Bridge, hook) && RunRule(base[d].exprs, p).verdict.Some?
    requires forall i | 0 <= i < d && InChain(base[i], Bridge, hook) :: RunRule(base[i].exprs, p).verdict.None?
    requires Walk(AllProbes(runner, probes), Bridge, hook, p, 0) == Path(None, own)
    ensures Walk(Instrumented(base, probes, runner), Bridge, hook, p, 0).hits == own + {Position(|probes|) + d}
  {
    var head, counted, tail := AllProbes(runner, probes), CountAll(base), Fallbacks();
    ProbeCount(runner, probes);
    FirstDecides(base, hook, p, |head|, d);
    assert Instrumented(base, probes, runner) == head + (counted + tail);
    hide AllProbes, CountAll, Fallbacks, Instrumented, RunRule;
    WalkSplits(counted, tail, Bridge, hook, p, |head|);
    WalkSplits(head, counted + tail, Bridge, hook, p, 0);
  }

  /** A template rule of the other port's direction says nothing. */
  lemma OtherPort(hook: Hook, source: Port, dest: Port, response: bool, operation: nat, p: Packet)
    requires p.field(IifName) != source.iface
    ensures RunRule(AtHook(hook, TcpMatches(source, dest, response), dest).exprs, p).verdict.None?
    ensures RunRule(AtHook(hook, ArpMatches(source, dest, operation), dest).exprs, p).verdict.None?
  {
    TcpMeans(source, dest, response, p);
    ArpMeans(source, dest, operation, p);
    var tcp, arp := TcpMatches(source, dest, response), ArpMatches(source, dest, operation);
    assert tcp[0] == arp[0] == Equals(IifName, source.iface) && !Holds(p, tcp[0]);
    hide TcpMatches, ArpMatches, AtHook, RunRule;
    RuleMeans(hook, tcp, dest, p);
    RuleMeans(hook, arp, dest, p);
  }

  lemma SilentDirection(source: Port, dest: Port, response: bool, p: Packet)
    requires p.field(IifName) != source.iface
    ensures forall i | 0 <= i < 6 :: RunRule(Direction(source, dest, response)[i].exprs, p).verdict.None?
  {
    forall hook: Hook
      ensures RunRule(AtHook(hook, TcpMatches(source, dest, response), dest).exprs, p).verdict.None?
      ensures RunRule(AtHook(hook, ArpMatches(source, dest, ARP_REQUEST), dest).exprs, p).verdict.None?
      ensures RunRule(AtHook(hook, ArpMatches(source, dest, ARP_REPLY), dest).exprs, p).verdict.None?
    {
      OtherPort(hook, source, dest, response, ARP_REQUEST, p);
      OtherPort(hook, source, dest, response, ARP_REPLY, p);
    }
    hide TcpMatches, ArpMatches, AtHook, RunRule;
  }

  /** The frame that a direction's service rules accept, on its way through both hooks. */
  predicate Crossing(p: Packet, source: Port, dest: Port, response: bool) {
    ServiceTcp(p, source, dest, response) && p.field(OifName) == dest.iface && p.field(IifIndex) == source.ifindex
  }

  lemma ServiceDecides(source: Port, dest: Port, response: bool, p: Packet)
    requires Crossing(p, source, dest, response)
    ensures var rules := Direction(source, dest, response);
            && InChain(rules[0], Bridge, Prerouting) && RunRule(rules[0].exprs, p).verdict == Some(Accepted)
            && InChain(rules[1], Bridge, Forward) && RunRule(rules[1].exprs, p).verdict == Some(Accepted)
  {
    TcpMeans(source, dest, response, p);
    hide TcpMatches, ArpMatches;
    RuleMeans(Prerouting, TcpMatches(source, dest, response), dest, p);
    RuleMeans(Forward, TcpMatches(source, dest, response), dest, p);
  }

  /** Where the first deciding rule of each hook stands in the template. */
  predicate DecidesFirst(base: seq<Rule>, hook: Hook, p: Packet, d: nat) {
    && d < |base| && InChain(base[d], Bridge, hook) && RunRule(base[d].exprs, p).verdict.Some?
    && forall i | 0 <= i < d && InChain(base[i], Bridge, hook) :: RunRule(base[i].exprs, p).verdict.None?
  }

  lemma TemplateAt(net: Network, target: Port, runner: Port)
    requires CompileRules(net, [target, runner]).Ok?
    ensures var rules := CompileRules(net, [target, runner]).value;
            && |rules| == 16 && (forall i | 0 <= i < 4 :: rules[i].family == Inet)
            && (forall i | 0 <= i < 6 :: rules[4 + i] == Direction(runner, target, false)[i])
            && (forall i | 0 <= i < 6 :: rules[10 + i] == Direction(target, runner, true)[i])
            && target.iface != runner.iface && target.ifindex != runner.ifindex
  {
    var host, there, back := HostRules(), Direction(runner, target, false), Direction(target, runner, true);
    var rules := CompileRules(net, [target, runner]).value;
    assert forall i | 0 <= i < 4 :: host[i].family == Inet;
    assert rules == host + there + back && |host| == 4 && |there| == |back| == 6;
    hide Direction, HostRules, CompileRules;
    assert forall i | 0 <= i < 4 :: rules[i] == host[i];
  }

  lemma RequestDecides(net: Network, target: Port, runner: Port, p: Packet)
    requires CompileRules(net, [target, runner]).Ok? && Crossing(p, runner, target, false)
    ensures var rules := CompileRules(net, [target, runner]).value;
            DecidesFirst(rules, Prerouting, p, 4) && DecidesFirst(rules, Forward, p, 5)
  {
    var rules := CompileRules(net, [target, runner]).value;
    TemplateAt(net, target, runner);
    ServiceDecides(runner, target, false, p);
    assert rules[4] == Direction(runner, target, false)[0] && rules[5] == Direction(runner, target, false)[1];
    hide Direction, CompileRules, RunRule, Crossing;
  }

  lemma ReplyDecides(net: Network, target: Port, runner: Port, p: Packet)
    requires CompileRules(net, [target, runner]).Ok? && Crossing(p, target, runner, true)
    ensures var rules := CompileRules(net, [target, runner]).value;
            DecidesFirst(rules, Prerouting, p, 10) && DecidesFirst(rules, Forward, p, 11)
  {
    var rules := CompileRules(net, [target, runner]).value;
    TemplateAt(net, target, runner);
    ServiceDecides(target, runner, true, p);
    SilentDirection(runner, target, false, p);
    assert rules[10] == Direction(target, runner, true)[0] && rules[11] == Direction(target, runner, true)[1];
    hide Direction, CompileRules, RunRule;
    assert forall i | 4 <= i < 10 :: rules[i] == Direction(runner, target, false)[i - 4];
  }

  lemma TypedDecides(base: seq<Rule>, rules: seq<Rule>, hook: Hook, p: Packet, d: nat)
    requires SameVerdicts(base, rules, p) && DecidesFirst(rules, hook, p, d)
    ensures DecidesFirst(base, hook, p, d)
  {
    hide RunRule;
  }

  lemma HitAt(base: seq<Rule>, probes: seq<seq<Byte>>, runner: nat, hook: Hook, p: Packet, d: nat, own: set<nat>)
    requires BaseRules(base) && DecidesFirst(base, hook, p, d)
    requires Walk(AllProbes(runner, probes), Bridge, hook, p, 0) == Path(None, own)
    ensures Walk(Instrumented(base, probes, runner), Bridge, hook, p, 0).hits == own + {Position(|probes|) + d}
  {
    CountedHit(base, probes, runner, hook, p, d, own);
  }

  /** The counters that the permitted probe moves on its way: ingress 0 and the request rule of each hook. */
  lemma RequestHits(net: Network, target: Port, runner: Port, probes: seq<seq<Byte>>, p: Packet)
    requires Approved(net, [target, runner]).Ok? && BaseRules(Approved(net, [target, runner]).value)
    requires Crossing(p, runner, target, false) && probes != [] && p.raw == probes[0] && !Probed(p, runner.ifindex, probes)
    ensures var rules, at := Instrumented(Approved(net, [target, runner]).value, probes, runner.ifindex), Position(|probes|);
            && Walk(rules, Bridge, Prerouting, p, 0).hits == {0, at + 4}
            && Walk(rules, Bridge, Forward, p, 0).hits == {at + 5}
  {
    var plain, i := CompileRules(net, [target, runner]).value, runner.ifindex;
    var base := TypedAll(plain);
    TypedTemplate(net, target, runner, p);
    RequestDecides(net, target, runner, p);
    PermittedProbeWalk(i, probes, p);
    hide CompileRules, TypedAll, SameVerdicts, DecidesFirst, Instrumented, AllProbes, Walk, Probed, Crossing;
    ProbeWalk(i, probes, Forward, p);
    TypedDecides(base, plain, Prerouting, p, 4);
    TypedDecides(base, plain, Forward, p, 5);
    HitAt(base, probes, i, Prerouting, p, 4, {0});
    HitAt(base, probes, i, Forward, p, 5, {});
  }

  /** The reply comes from the other port, so no probe rule matches it. */
  lemma ReplyIsClear(net: Network, target: Port, runner: Port, probes: seq<seq<Byte>>, r: Packet)
    requires CompileRules(net, [target, runner]).Ok? && Crossing(r, target, runner, true)
    ensures Clear(r, runner.ifindex, probes)
  {
    TemplateAt(net, target, runner);
  }

  /** Those that its reply moves: the reply rule of each hook. */
  lemma ReplyHits(net: Network, target: Port, runner: Port, probes: seq<seq<Byte>>, r: Packet)
    requires Approved(net, [target, runner]).Ok? && BaseRules(Approved(net, [target, runner]).value)
    requires Crossing(r, target, runner, true)
    ensures var rules, at := Instrumented(Approved(net, [target, runner]).value, probes, runner.ifindex), Position(|probes|);
            && Walk(rules, Bridge, Prerouting, r, 0).hits == {at + 10}
            && Walk(rules, Bridge, Forward, r, 0).hits == {at + 11}
  {
    hide CompileRules, TypedAll, SameVerdicts, DecidesFirst, Instrumented, AllProbes, Walk, Clear, Crossing, BaseRules, Position;
    var plain, i := CompileRules(net, [target, runner]).value, runner.ifindex;
    var base := TypedAll(plain);
    TypedTemplate(net, target, runner, r);
    ReplyDecides(net, target, runner, r);
    ReplyIsClear(net, target, runner, probes, r);
    ProbeWalk(i, probes, Forward, r);
    ClearWalk(i, probes, r);
    TypedDecides(base, plain, Prerouting, r, 10);
    TypedDecides(base, plain, Forward, r, 11);
    HitAt(base, probes, i, Prerouting, r, 10, {});
    HitAt(base, probes, i, Forward, r, 11, {});
  }

  // ----- what the sample check demands of it -----

  /** What the recipe calls a base rule's counter. */
  function LabelOf(r: Rule): CounterEvidence.Role {
    if r.exprs == [] || r.exprs[|r.exprs| - 1] != Accept then CounterEvidence.OtherCounter
    else if Names(r.exprs, TcpDport) then CounterEvidence.TcpRequest
    else if Names(r.exprs, TcpSport) then CounterEvidence.TcpReply
    else CounterEvidence.OtherCounter
  }

  predicate Names(exprs: seq<Expr>, f: Field) { exists i | 0 <= i < |exprs| :: exprs[i].Equals? && exprs[i].field == f }

  /** Base counters by their rules, then the four fallbacks. */
  function Labels(base: seq<Rule>): seq<CounterEvidence.Role> {
    seq(|base|, i requires 0 <= i < |base| => LabelOf(base[i])) + seq(4, i => CounterEvidence.OtherCounter)
  }

  lemma TcpLabels(hook: Hook, source: Port, dest: Port, response: bool, operation: nat)
    ensures LabelOf(Typed(AtHook(hook, TcpMatches(source, dest, response), dest)))
            == if response then CounterEvidence.TcpReply else CounterEvidence.TcpRequest
    ensures LabelOf(Typed(AtHook(hook, ArpMatches(source, dest, operation), dest))) == CounterEvidence.OtherCounter
  {
    var tcp := Typed(AtHook(hook, TcpMatches(source, dest, response), dest)).exprs;
    assert tcp[8] == Equals(if response then TcpSport else TcpDport, SERVICE_PORT);
  }

  lemma DirectionLabels(source: Port, dest: Port, response: bool)
    ensures forall i | 0 <= i < 6 :: LabelOf(Typed(Direction(source, dest, response)[i]))
              == if i >= 2 then CounterEvidence.OtherCounter
                 else if response then CounterEvidence.TcpReply else CounterEvidence.TcpRequest
  {
    hide TcpMatches, ArpMatches, AtHook, LabelOf, Typed;
    var rules := Direction(source, dest, response);
    forall i | 0 <= i < 6
      ensures LabelOf(Typed(rules[i])) == if i >= 2 then CounterEvidence.OtherCounter
                                          else if response then CounterEvidence.TcpReply else CounterEvidence.TcpRequest
    {
      TcpLabels(if i % 2 == 0 then Prerouting else Forward, source, dest, response, if i < 4 then ARP_REQUEST else ARP_REPLY);
    }
  }

  /** The service rules stand at 4 and 5 one way and at 10 and 11 the other. */
  predicate TemplateLabels(labels: seq<CounterEvidence.Role>) {
    && |labels| == 20
    && forall k | 0 <= k < 20 ::
         labels[k] == (if k == 4 || k == 5 then CounterEvidence.TcpRequest
                       else if k == 10 || k == 11 then CounterEvidence.TcpReply else CounterEvidence.OtherCounter)
  }

  lemma LabelsAre(net: Network, target: Port, runner: Port)
    requires Approved(net, [target, runner]).Ok?
    ensures var labels := Labels(Approved(net, [target, runner]).value);
            TemplateLabels(labels) && CounterLink.Unprobed(labels)
  {
    var plain, host := CompileRules(net, [target, runner]).value, HostRules();
    TemplateAt(net, target, runner);
    DirectionLabels(runner, target, false);
    DirectionLabels(target, runner, true);
    assert forall i | 0 <= i < 4 :: plain[i] == host[i] && LabelOf(Typed(host[i])) == CounterEvidence.OtherCounter;
    hide CompileRules, Direction, LabelOf, Typed, HostRules;
    assert forall k | 4 <= k < 10 :: plain[k] == Direction(runner, target, false)[k - 4];
    assert forall k | 10 <= k < 16 :: plain[k] == Direction(target, runner, true)[k - 10];
  }

  /** The traffic of one permitted exchange: what prerouting drops goes no further, and gets no reply. */
  function Exchange(rules: seq<Rule>, p: Packet, r: Packet): Traffic {
    if Judge(rules, Bridge, Prerouting, p) == Accepted
    then [(Prerouting, p), (Forward, p), (Prerouting, r), (Forward, r)]
    else [(Prerouting, p)]
  }

  /** The readings around some traffic. */
  predicate Counted(rules: seq<Rule>, traffic: Traffic, s: CounterEvidence.Sample) {
    && |s.before| == |s.after| == |rules|
    && forall k | 0 <= k < |rules| ::
         && s.after[k].packets == s.before[k].packets + Tally(rules, traffic, k, _ => 1)
         && s.after[k].bytes == s.before[k].bytes + Tally(rules, traffic, k, (x: Packet) => |x.raw|)
  }

  lemma OneTally(rules: seq<Rule>, a: (Hook, Packet), k: nat, weigh: Packet -> nat)
    ensures Tally(rules, [a], k, weigh) == if Moves(rules, a, k) then weigh(a.1) else 0
  {
    assert [a][..0] == [];
  }

  lemma FourTally(rules: seq<Rule>, a: (Hook, Packet), b: (Hook, Packet), c: (Hook, Packet), d: (Hook, Packet), k: nat, weigh: Packet -> nat)
    ensures Tally(rules, [a, b, c, d], k, weigh) ==
            (if Moves(rules, a, k) then weigh(a.1) else 0) + (if Moves(rules, b, k) then weigh(b.1) else 0)
            + (if Moves(rules, c, k) then weigh(c.1) else 0) + (if Moves(rules, d, k) then weigh(d.1) else 0)
  {
    hide Moves;
    assert [a, b, c, d][..3] == [a, b, c] && [a, b, c][..2] == [a, b] && [a, b][..1] == [a];
    OneTally(rules, a, k, weigh);
    assert Tally(rules, [a, b], k, weigh) == Tally(rules, [a], k, weigh) + (if Moves(rules, b, k) then weigh(b.1) else 0);
    assert Tally(rules, [a, b, c], k, weigh) == Tally(rules, [a, b], k, weigh) + (if Moves(rules, c, k) then weigh(c.1) else 0);
  }

  /** What each counter must show for the permitted probe. */
  lemma PermittedPlan(wire: CounterEvidence.Wire, n: nat, labels: seq<CounterEvidence.Role>, s: CounterEvidence.Sample, k: nat)
    requires 1 <= n && TemplateLabels(labels) && k < Position(n) + 20
    ensures var at := Position(n);
            CounterEvidence.Planned(wire, CounterLink.Roles(n, labels)[k], 0, s) ==
            if k == 0 || k == at + 4 || k == at + 5 then CounterEvidence.Value(1, CounterEvidence.FrameLength(wire, 0))
            else if k == at + 10 || k == at + 11 then CounterEvidence.Value(1, CounterEvidence.ReplyLength(wire, s))
            else CounterEvidence.Value(0, 0)
  {
    hide CounterEvidence.FrameLength, CounterEvidence.ReplyLength;
  }

  /** The permitted probe passes prerouting unless a negative probe takes it. */
  lemma RequestJudged(net: Network, target: Port, runner: Port, probes: seq<seq<Byte>>, p: Packet)
    requires Approved(net, [target, runner]).Ok? && Crossing(p, runner, target, false)
    ensures BaseRules(Approved(net, [target, runner]).value)
    ensures Judge(Instrumented(Approved(net, [target, runner]).value, probes, runner.ifindex), Bridge, Prerouting, p)
            == if Probed(p, runner.ifindex, probes) then Dropped else Accepted
  {
    var plain := CompileRules(net, [target, runner]).value;
    TypedTemplate(net, target, runner, p);
    assert MayEnter(p, runner, target, false);
    var base := TypedAll(plain);
    hide CompileRules, TypedAll, Instrumented, Probed, MayEnter, Crossing, SameVerdicts;
    SameWalk(base, plain, Bridge, Prerouting, p, 0);
    BridgeVerdict(net, target, runner, Prerouting, p);
    MeaningPreserved(base, probes, runner.ifindex, Bridge, Prerouting, p);
  }

  /** A probed frame moves nothing behind the probe rules. */
  lemma ProbedStopsEarly(base: seq<Rule>, probes: seq<seq<Byte>>, runner: nat, p: Packet, k: nat)
    requires BaseRules(base) && Probed(p, runner, probes) && Position(|probes|) <= k
    ensures k !in Walk(Instrumented(base, probes, runner), Bridge, Prerouting, p, 0).hits
  {
    var head, tail := AllProbes(runner, probes), CountAll(base) + Fallbacks();
    assert Instrumented(base, probes, runner) == head + tail;
    ProbeCount(runner, probes);
    ProbeWalk(runner, probes, Prerouting, p);
    hide AllProbes, CountAll, Fallbacks, Instrumented, Probed;
    WalkSplits(head, tail, Bridge, Prerouting, p, 0);
    HitsAreInRange(head, Bridge, Prerouting, p, 0);
  }

  /** Each counter after the whole exchange. */
  lemma ExchangeTally(rules: seq<Rule>, p: Packet, r: Packet, at: nat, k: nat, weigh: Packet -> nat)
    requires at >= 1 && Judge(rules, Bridge, Prerouting, p) == Accepted
    requires Walk(rules, Bridge, Prerouting, p, 0).hits == {0, at + 4} && Walk(rules, Bridge, Forward, p, 0).hits == {at + 5}
    requires Walk(rules, Bridge, Prerouting, r, 0).hits == {at + 10} && Walk(rules, Bridge, Forward, r, 0).hits == {at + 11}
    ensures Tally(rules, Exchange(rules, p, r), k, weigh) ==
            if k == 0 || k == at + 4 || k == at + 5 then weigh(p)
            else if k == at + 10 || k == at + 11 then weigh(r) else 0
  {
    hide Walk, Judge, Tally;
    FourTally(rules, (Prerouting, p), (Forward, p), (Prerouting, r), (Forward, r), k, weigh);
  }

  lemma ExchangeShows(wire: CounterEvidence.Wire, base: seq<Rule>, runner: nat, labels: seq<CounterEvidence.Role>,
                      p: Packet, r: Packet, s: CounterEvidence.Sample)
    requires BaseRules(base) && wire.frames != [] && p.raw == wire.frames[0]
    requires TemplateLabels(labels) && |base| == 16
    requires var rules, at := Instrumented(base, wire.frames, runner), Position(|wire.frames|);
             && Counted(rules, Exchange(rules, p, r), s) && Judge(rules, Bridge, Prerouting, p) == Accepted
             && Walk(rules, Bridge, Prerouting, p, 0).hits == {0, at + 4} && Walk(rules, Bridge, Forward, p, 0).hits == {at + 5}
             && Walk(rules, Bridge, Prerouting, r, 0).hits == {at + 10} && Walk(rules, Bridge, Forward, r, 0).hits == {at + 11}
    ensures CounterEvidence.ExactDeltas(wire, CounterLink.Roles(|wire.frames|, labels), 0, s)
            <==> CounterEvidence.ReplyLength(wire, s) == |r.raw|
  {
    var n := |wire.frames|;
    var rules, roles, at := Instrumented(base, wire.frames, runner), CounterLink.Roles(n, labels), Position(n);
    InstrumentedSize(base, wire.frames, runner);
    assert |rules| == |roles| == at + 20 && at >= 1;
    hide Instrumented, CounterLink.Roles, CounterEvidence.Planned, CounterEvidence.ReplyLength, Tally, Position, Exchange, Walk, Judge;
    forall k | 0 <= k < |roles|
      ensures s.after[k].packets - s.before[k].packets == CounterEvidence.Planned(wire, roles[k], 0, s).packets
      ensures CounterEvidence.ReplyLength(wire, s) == |r.raw| ==>
                s.after[k].bytes - s.before[k].bytes == CounterEvidence.Planned(wire, roles[k], 0, s).bytes
      ensures k == at + 10 && s.after[k].bytes - s.before[k].bytes == CounterEvidence.Planned(wire, roles[k], 0, s).bytes ==>
                CounterEvidence.ReplyLength(wire, s) == |r.raw|
    {
      PermittedPlan(wire, n, labels, s, k);
      ExchangeTally(rules, p, r, at, k, _ => 1);
      ExchangeTally(rules, p, r, at, k, (x: Packet) => |x.raw|);
    }
    var k := at + 10;
    if CounterEvidence.ExactDeltas(wire, roles, 0, s) {
      assert s.after[k].bytes - s.before[k].bytes == CounterEvidence.Planned(wire, roles[k], 0, s).bytes;
    }
  }

  lemma DroppedShows(wire: CounterEvidence.Wire, base: seq<Rule>, runner: nat, labels: seq<CounterEvidence.Role>,
                     p: Packet, r: Packet, s: CounterEvidence.Sample)
    requires BaseRules(base) && wire.frames != [] && Probed(p, runner, wire.frames) && |base| == 16
    requires TemplateLabels(labels)
    requires var rules := Instrumented(base, wire.frames, runner);
             Counted(rules, Exchange(rules, p, r), s) && Judge(rules, Bridge, Prerouting, p) == Dropped
    ensures !CounterEvidence.ExactDeltas(wire, CounterLink.Roles(|wire.frames|, labels), 0, s)
  {
    var n := |wire.frames|;
    var rules, roles, at := Instrumented(base, wire.frames, runner), CounterLink.Roles(n, labels), Position(n);
    InstrumentedSize(base, wire.frames, runner);
    assert |rules| == |roles| == at + 20;
    ProbedStopsEarly(base, wire.frames, runner, p, at + 4);
    OneTally(rules, (Prerouting, p), at + 4, _ => 1);
    PermittedPlan(wire, n, labels, s, at + 4);
    hide Instrumented, CounterLink.Roles, CounterEvidence.Planned, Tally, Probed, Position, Walk;
  }

  /** The sample check is met by one permitted exchange through the installed firewall if and only if no
      negative probe frame is a prefix of the permitted one and the reply on the wire is as long as its
      unpadded observation. */
  lemma PermittedSampleExact(wire: CounterEvidence.Wire, net: Network, target: Port, runner: Port, p: Packet, r: Packet,
                             s: CounterEvidence.Sample)
    requires Approved(net, [target, runner]).Ok? && wire.frames != [] && p.raw == wire.frames[0]
    requires Crossing(p, runner, target, false) && Crossing(r, target, runner, true)
    requires BaseRules(Approved(net, [target, runner]).value)
    requires var rules := Instrumented(Approved(net, [target, runner]).value, wire.frames, runner.ifindex);
             Counted(rules, Exchange(rules, p, r), s)
    ensures var roles := CounterLink.Roles(|wire.frames|, Labels(Approved(net, [target, runner]).value));
            CounterEvidence.ExactDeltas(wire, roles, 0, s)
            <==> && (forall j | 1 <= j < |wire.frames| :: !(wire.frames[j] <= wire.frames[0]))
                 && CounterEvidence.ReplyLength(wire, s) == |r.raw|
  {
    var base, i := Approved(net, [target, runner]).value, runner.ifindex;
    LabelsAre(net, target, runner);
    assert |base| == 16;
    RequestJudged(net, target, runner, wire.frames, p);
    assert Probed(p, i, wire.frames) <==> !forall j | 1 <= j < |wire.frames| :: !(wire.frames[j] <= wire.frames[0]);
    hide Instrumented, Labels, CounterLink.Roles, Approved, Crossing, Probed, Position, Counted, Exchange, Walk, Judge;
    hide CounterEvidence.ExactDeltas, CounterEvidence.ReplyLength;
    if Probed(p, i, wire.frames) {
      DroppedShows(wire, base, i, Labels(base), p, r, s);
    } else {
      RequestHits(net, target, runner, wire.frames, p);
      ReplyHits(net, target, runner, wire.frames, r);
      ExchangeShows(wire, base, i, Labels(base), p, r, s);
    }
  }

  lemma InstrumentedSize(base: seq<Rule>, probes: seq<seq<Byte>>, runner: nat)
    requires BaseRules(base)
    ensures |Instrumented(base, probes, runner)| == Position(|probes|) + |base| + 4
  {
    ProbeCount(runner, probes);
  }
}
