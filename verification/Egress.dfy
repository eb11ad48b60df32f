/** The egress compiler: a fixed rule template, default drop on every bridge path. */
module Egress {
  import opened Base
  import opened Firewall

  const BRIDGE_NAME := 1        // 'tcsh0'
  const SERVICE_PORT := 8080

  /** A bridge port as it was independently resolved; interfaces, MACs and addresses are numbers. */
  datatype Port = Port(iface: nat, ifindex: nat, mac: nat, ip: nat)

  datatype Network = Network(targetIp: nat, runnerIp: nat)

  datatype Denial = PortCount | PortIpMismatch | PortAlias

  function HostRules(): seq<Rule> {
    [Rule(Inet, Input, [Equals(IifName, BRIDGE_NAME), Drop]),
     Rule(Inet, Forward, [Equals(IifName, BRIDGE_NAME), Drop]),
     Rule(Inet, Output, [Equals(OifName, BRIDGE_NAME), Drop]),
     Rule(Inet, Forward, [Equals(OifName, BRIDGE_NAME), Drop])]
  }

  function TcpMatches(source: Port, dest: Port, response: bool): seq<Expr> {
    [Equals(IifName, source.iface), Equals(EtherSaddr, source.mac), Equals(EtherDaddr, dest.mac),
     Equals(IpSaddr, source.ip), Equals(IpDaddr, dest.ip), Unfragmented,
     Equals(L4Proto, PROTO_TCP), Equals(if response then TcpSport else TcpDport, SERVICE_PORT)]
    + (if response then [Equals(CtState, CT_ESTABLISHED)] else [])
  }

  function ArpMatches(source: Port, dest: Port, operation: nat): seq<Expr> {
    [Equals(IifName, source.iface), Equals(EtherSaddr, source.mac), Equals(ArpOperation, operation),
     Equals(ArpSaddrEther, source.mac), Equals(ArpSaddrIp, source.ip), Equals(ArpDaddrIp, dest.ip)]
  }

  /** The same conditions at both hooks; forwarding also pins the way out. */
  function AtHook(hook: Hook, matches: seq<Expr>, dest: Port): Rule {
    Rule(Bridge, hook, matches + (if hook == Forward then [Equals(OifName, dest.iface)] else []) + [Accept])
  }

  function Direction(source: Port, dest: Port, response: bool): seq<Rule> {
    [AtHook(Prerouting, TcpMatches(source, dest, response), dest),
     AtHook(Forward, TcpMatches(source, dest, response), dest),
     AtHook(Prerouting, ArpMatches(source, dest, ARP_REQUEST), dest),
     AtHook(Forward, ArpMatches(source, dest, ARP_REQUEST), dest),
     AtHook(Prerouting, ArpMatches(source, dest, ARP_REPLY), dest),
     AtHook(Forward, ArpMatches(source, dest, ARP_REPLY), dest)]
  }

  /** `ports` is empty for the bootstrap template, or the target followed by the runner. */
  function CompileRules(net: Network, ports: seq<Port>): Result<seq<Rule>, Denial> {
    if |ports| != 0 && |ports| != 2 then Err(PortCount)
    else if ports == [] then Ok(HostRules())
    else
      var target, runner := ports[0], ports[1];
      if target.ip != net.targetIp || runner.ip != net.runnerIp then Err(PortIpMismatch)
      else if target.iface == runner.iface || target.ifindex == runner.ifindex || target.mac == runner.mac then Err(PortAlias)
      else Ok(HostRules() + Direction(runner, target, false) + Direction(target, runner, true))
  }

  // ----- rendering, rule by rule -----

  method RenderRules(net: Network, ports: seq<Port>) returns (r: Result<seq<Rule>, Denial>)
    ensures r == CompileRules(net, ports)
  {
    hide Direction;
    var commands := [];
    for i := 0 to 2
      invariant commands == HostRules()[..i]
    {
      commands := commands + [Rule(Inet, [Input, Forward][i], [Equals(IifName, BRIDGE_NAME), Drop])];
    }
    for i := 0 to 2
      invariant commands == HostRules()[..2 + i]
    {
      commands := commands + [Rule(Inet, [Output, Forward][i], [Equals(OifName, BRIDGE_NAME), Drop])];
    }
    assert commands == HostRules();
    if |ports| != 0 && |ports| != 2 {
      return Err(PortCount);
    }
    if ports == [] {
      return Ok(commands);
    }
    var target, runner := ports[0], ports[1];
    if target.ip != net.targetIp || runner.ip != net.runnerIp {
      return Err(PortIpMismatch);
    }
    if target.iface == runner.iface || target.ifindex == runner.ifindex || target.mac == runner.mac {
      return Err(PortAlias);
    }
    var there := RenderDirection(runner, target, false);
    var back := RenderDirection(target, runner, true);
    return Ok(commands + there + back);
  }

  method RenderDirection(source: Port, dest: Port, response: bool) returns (rules: seq<Rule>)
    ensures rules == Direction(source, dest, response)
  {
    hide TcpMatches, ArpMatches, AtHook;
    rules := [];
    for i := 0 to 2
      invariant rules == Direction(source, dest, response)[..i]
    {
      rules := rules + [AtHook([Prerouting, Forward][i], TcpMatches(source, dest, response), dest)];
    }
    for k := 0 to 2
      invariant rules == Direction(source, dest, response)[..2 + 2 * k]
    {
      var arp := ArpMatches(source, dest, [ARP_REQUEST, ARP_REPLY][k]);
      for i := 0 to 2
        invariant rules == Direction(source, dest, response)[..2 + 2 * k + i]
      {
        rules := rules + [AtHook([Prerouting, Forward][i], arp, dest)];
      }
    }
  }

  // ----- what may cross the bridge, said without rules -----

  predicate FromPort(p: Packet, source: Port) {
    p.field(IifName) == source.iface && p.field(EtherSaddr) == source.mac
  }

  predicate ServiceTcp(p: Packet, source: Port, dest: Port, response: bool) {
    && FromPort(p, source) && p.field(EtherDaddr) == dest.mac
    && p.field(EtherType) == ETHER_IP && p.field(IpSaddr) == source.ip && p.field(IpDaddr) == dest.ip
    && p.field(IpFragOff) % 16384 == 0 && p.field(L4Proto) == PROTO_TCP
    && (if response then p.field(TcpSport) == SERVICE_PORT && p.field(CtState) == CT_ESTABLISHED
        else p.field(TcpDport) == SERVICE_PORT)
  }

  predicate PeerArp(p: Packet, source: Port, dest: Port) {
    && FromPort(p, source) && p.field(EtherType) == ETHER_ARP
    && (p.field(ArpOperation) == ARP_REQUEST || p.field(ArpOperation) == ARP_REPLY)
    && p.field(ArpSaddrEther) == source.mac && p.field(ArpSaddrIp) == source.ip && p.field(ArpDaddrIp) == dest.ip
  }

  predicate MayEnter(p: Packet, source: Port, dest: Port, response: bool) {
    ServiceTcp(p, source, dest, response) || PeerArp(p, source, dest)
  }

  /** Runner-to-target service TCP, its established reply, or ARP between the two peers. */
  predicate Permitted(p: Packet, target: Port, runner: Port) {
    || (MayEnter(p, runner, target, false) && p.field(OifName) == target.iface)
    || (MayEnter(p, target, runner, true) && p.field(OifName) == runner.iface)
  }

  // ----- the template means exactly that -----

  lemma RuleMeans(hook: Hook, matches: seq<Expr>, dest: Port, p: Packet)
    requires AllMatches(matches)
    ensures RunRule(AtHook(hook, matches, dest).exprs, p).verdict ==
            if AllHold(p, matches) && (hook == Forward ==> p.field(OifName) == dest.iface) then Some(Accepted) else None
    ensures AtHook(hook, matches, dest).family == Bridge && AtHook(hook, matches, dest).hook == hook
  {
    var way := if hook == Forward then [Equals(OifName, dest.iface)] else [];
    RunMatches(matches, way + [Accept], p);
    RunMatches(way, [Accept], p);
    assert matches + way + [Accept] == matches + (way + [Accept]);
  }

  lemma TcpMeans(source: Port, dest: Port, response: bool, p: Packet)
    ensures AllMatches(TcpMatches(source, dest, response))
    ensures AllHold(p, TcpMatches(source, dest, response)) <==> ServiceTcp(p, source, dest, response)
  {
    var ms := TcpMatches(source, dest, response);
    if AllHold(p, ms) {
      assert Holds(p, ms[0]) && Holds(p, ms[1]) && Holds(p, ms[2]) && Holds(p, ms[3]);
      assert Holds(p, ms[4]) && Holds(p, ms[5]) && Holds(p, ms[6]) && Holds(p, ms[7]);
      assert response ==> Holds(p, ms[8]);
    }
  }

  lemma ArpMeans(source: Port, dest: Port, operation: nat, p: Packet)
    ensures AllMatches(ArpMatches(source, dest, operation))
    ensures AllHold(p, ArpMatches(source, dest, operation)) && (operation == ARP_REQUEST || operation == ARP_REPLY) ==>
            PeerArp(p, source, dest)
    ensures PeerArp(p, source, dest) && p.field(ArpOperation) == operation ==>
            AllHold(p, ArpMatches(source, dest, operation))
  {
    var ms := ArpMatches(source, dest, operation);
    if AllHold(p, ms) {
      assert Holds(p, ms[0]) && Holds(p, ms[1]) && Holds(p, ms[2]);
      assert Holds(p, ms[3]) && Holds(p, ms[4]) && Holds(p, ms[5]);
    }
  }

  /** The rule belongs to this bridge chain and decides for the packet. */
  predicate Decides(r: Rule, hook: Hook, p: Packet) {
    InChain(r, Bridge, hook) && RunRule(r.exprs, p).verdict.Some?
  }

  predicate NeverDrops(r: Rule, hook: Hook, p: Packet) {
    InChain(r, Bridge, hook) ==> RunRule(r.exprs, p).verdict != Some(Dropped)
  }

  predicate Decided(rules: seq<Rule>, hook: Hook, p: Packet) {
    exists i | 0 <= i < |rules| :: Decides(rules[i], hook, p)
  }

  /** In a chain that can only accept, the packet is accepted exactly when some rule decides. */
  lemma {:induction false} AcceptingChain(rules: seq<Rule>, hook: Hook, p: Packet, n: nat)
    requires forall i | 0 <= i < |rules| :: NeverDrops(rules[i], hook, p)
    ensures Walk(rules, Bridge, hook, p, n).verdict == if Decided(rules, hook, p) then Some(Accepted) else None
    decreases |rules|
  {
    if rules != [] {
      var rest := rules[1..];
      assert forall i | 0 <= i < |rest| :: rest[i] == rules[i + 1];
      AcceptingChain(rest, hook, p, n + 1);
      assert NeverDrops(rules[0], hook, p);
      if Decides(rules[0], hook, p) {
        var v: Verdict := RunRule(rules[0].exprs, p).verdict.value;
        assert v == Accepted || v == Dropped;
        assert Decided(rules, hook, p);
      }
      if Decided(rules, hook, p) {
        var i :| 0 <= i < |rules| && Decides(rules[i], hook, p);
        assert i > 0 ==> Decides(rest[i - 1], hook, p);
      }
      if Decided(rest, hook, p) {
        var i :| 0 <= i < |rest| && Decides(rest[i], hook, p);
        assert Decides(rules[i + 1], hook, p);
      }
    }
  }

  /** When a template rule decides, and that it never drops. */
  lemma TemplateRule(at: Hook, matches: seq<Expr>, dest: Port, hook: Hook, p: Packet)
    requires AllMatches(matches)
    ensures var r := AtHook(at, matches, dest);
            && NeverDrops(r, hook, p)
            && (Decides(r, hook, p) <==> at == hook && AllHold(p, matches) && (at == Forward ==> p.field(OifName) == dest.iface))
  {
    RuleMeans(at, matches, dest, p);
  }

  lemma DirectionMeans(source: Port, dest: Port, response: bool, hook: Hook, p: Packet)
    requires hook == Prerouting || hook == Forward
    ensures forall i | 0 <= i < 6 :: NeverDrops(Direction(source, dest, response)[i], hook, p)
    ensures Decided(Direction(source, dest, response), hook, p) <==>
            MayEnter(p, source, dest, response) && (hook == Forward ==> p.field(OifName) == dest.iface)
  {
    hide AtHook, NeverDrops, Decides, TcpMatches, ArpMatches, AllHold, AllMatches, ServiceTcp, PeerArp;
    var tcp := TcpMatches(source, dest, response);
    var request, reply := ArpMatches(source, dest, ARP_REQUEST), ArpMatches(source, dest, ARP_REPLY);
    TcpMeans(source, dest, response, p);
    ArpMeans(source, dest, ARP_REQUEST, p);
    ArpMeans(source, dest, ARP_REPLY, p);
    ArpIsOneOfTwo(source, dest, p);
    TemplateRule(Prerouting, tcp, dest, hook, p);
    TemplateRule(Prerouting, request, dest, hook, p);
    TemplateRule(Prerouting, reply, dest, hook, p);
    TemplateRule(Forward, tcp, dest, hook, p);
    TemplateRule(Forward, request, dest, hook, p);
    TemplateRule(Forward, reply, dest, hook, p);
    var rules := Direction(source, dest, response);
    var shift := if hook == Forward then 1 else 0;
    assert Decided(rules, hook, p) <==>
           Decides(rules[shift], hook, p) || Decides(rules[shift + 2], hook, p) || Decides(rules[shift + 4], hook, p);
  }

  lemma ArpIsOneOfTwo(source: Port, dest: Port, p: Packet)
    ensures PeerArp(p, source, dest) ==> p.field(ArpOperation) == ARP_REQUEST || p.field(ArpOperation) == ARP_REPLY
  {
  }

  lemma HostRulesAreInet(hook: Hook, p: Packet)
    ensures forall i | 0 <= i < 4 :: NeverDrops(HostRules()[i], hook, p) && !Decides(HostRules()[i], hook, p)
  {
  }

  /** With both ports bound, a frame passes prerouting and forward if and only if it is permitted. */
  lemma TwoPortsExact(net: Network, target: Port, runner: Port, p: Packet)
    requires CompileRules(net, [target, runner]).Ok?
    ensures var rules := CompileRules(net, [target, runner]).value;
            Judge(rules, Bridge, Prerouting, p) == Accepted && Judge(rules, Bridge, Forward, p) == Accepted
            <==> Permitted(p, target, runner)
  {
    BridgeVerdict(net, target, runner, Prerouting, p);
    BridgeVerdict(net, target, runner, Forward, p);
  }

  lemma BridgeVerdict(net: Network, target: Port, runner: Port, hook: Hook, p: Packet)
    requires CompileRules(net, [target, runner]).Ok? && (hook == Prerouting || hook == Forward)
    ensures Judge(CompileRules(net, [target, runner]).value, Bridge, hook, p) == Accepted <==>
            || (MayEnter(p, runner, target, false) && (hook == Forward ==> p.field(OifName) == target.iface))
            || (MayEnter(p, target, runner, true) && (hook == Forward ==> p.field(OifName) == runner.iface))
  {
    hide MayEnter, NeverDrops, Decides;
    var host, there, back := HostRules(), Direction(runner, target, false), Direction(target, runner, true);
    var rules := host + there + back;
    HostRulesAreInet(hook, p);
    DirectionMeans(runner, target, false, hook, p);
    DirectionMeans(target, runner, true, hook, p);
    assert rules[..4] == host && rules[4..10] == there && rules[10..] == back;
    hide Direction, HostRules;
    assert forall i | 0 <= i < 16 :: rules[i] == (if i < 4 then host[i] else if i < 10 then there[i - 4] else back[i - 10]);
    AcceptingChain(rules, hook, p, 0);
    DecidedConcat(host, there, back, hook, p);
  }

  lemma DecidedConcat(a: seq<Rule>, b: seq<Rule>, c: seq<Rule>, hook: Hook, p: Packet)
    requires forall i | 0 <= i < |a| :: !Decides(a[i], hook, p)
    ensures Decided(a + b + c, hook, p) <==> Decided(b, hook, p) || Decided(c, hook, p)
  {
    var all := a + b + c;
    if Decided(b, hook, p) {
      var i :| 0 <= i < |b| && Decides(b[i], hook, p);
      assert Decides(all[|a| + i], hook, p);
    }
    if Decided(c, hook, p) {
      var i :| 0 <= i < |c| && Decides(c[i], hook, p);
      assert Decides(all[|a| + |b| + i], hook, p);
    }
    if Decided(all, hook, p) {
      assert forall k | 0 <= k < |a| :: all[k] == a[k];
      var i :| 0 <= i < |all| && Decides(all[i], hook, p);
      assert all[i] == if i < |a| + |b| then b[i - |a|] else c[i - |a| - |b|];
    }
  }

  /** The bootstrap template lets no frame across the bridge, at any hook. */
  lemma BootstrapDropsAll(net: Network, hook: Hook, p: Packet)
    ensures CompileRules(net, []) == Ok(HostRules()) && Judge(HostRules(), Bridge, hook, p) == Dropped
  {
    HostRulesAreInet(hook, p);
    AcceptingChain(HostRules(), hook, p, 0);
  }

  /** Host traffic in or out through the bridge is dropped, whatever the ports. */
  lemma HostIsolated(net: Network, ports: seq<Port>, hook: Hook, p: Packet)
    requires CompileRules(net, ports).Ok? && hook != Prerouting
    requires (hook != Output && p.field(IifName) == BRIDGE_NAME) || (hook != Input && p.field(OifName) == BRIDGE_NAME)
    ensures Judge(CompileRules(net, ports).value, Inet, hook, p) == Dropped
  {
    var host := HostRules();
    var rest := CompileRules(net, ports).value[|host|..];
    assert CompileRules(net, ports).value == host + rest;
    WalkSplits(host, rest, Inet, hook, p, 0);
    HostWalk(hook, p);
  }

  lemma HostWalk(hook: Hook, p: Packet)
    requires hook != Prerouting
    requires (hook != Output && p.field(IifName) == BRIDGE_NAME) || (hook != Input && p.field(OifName) == BRIDGE_NAME)
    ensures Walk(HostRules(), Inet, hook, p, 0).verdict == Some(Dropped)
  {
    var host := HostRules();
    forall r | r in host
      ensures RunRule(r.exprs, p).verdict == if Holds(p, r.exprs[0]) then Some(Dropped) else None
    {
      assert r.exprs[1..] == [Drop];
    }
    assert host[1..][1..] == host[2..] && host[2..][1..] == host[3..] && host[3..][1..] == [];
    assert host[0] in host && host[1] in host && host[2] in host && host[3] in host;
    var last := Walk(host[3..], Inet, hook, p, 3);
    var third := Walk(host[2..], Inet, hook, p, 2);
    var second := Walk(host[1..], Inet, hook, p, 1);
  }
}
