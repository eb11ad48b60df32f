/** A small evaluator for the nftables rules the compilers emit: chains of match lists with counters. */
module Firewall {
  import opened Base

  datatype Family = Bridge | Inet

  datatype Hook = Prerouting | Input | Forward | Output

  datatype Field =
    | IifName | IifIndex | OifName | EtherSaddr | EtherDaddr | EtherType
    | IpSaddr | IpDaddr | IpFragOff | L4Proto | TcpSport | TcpDport | CtState
    | ArpOperation | ArpSaddrEther | ArpSaddrIp | ArpDaddrIp

  /** Names, addresses and enumerations are numbers; `raw` is the link-layer frame. */
  datatype Packet = Packet(field: Field -> nat, raw: seq<Byte>)

  const ETHER_IP := 0x0800
  const ETHER_ARP := 0x0806
  const PROTO_TCP := 6
  const CT_ESTABLISHED := 2
  const ARP_REQUEST := 1
  const ARP_REPLY := 2

  datatype Expr =
    | Equals(field: Field, value: nat)
    | Unfragmented                             // frag-off & 16383 == 0
    | RawBytes(offset: nat, bytes: seq<Byte>)
    | Counter
    | Accept
    | Drop

  predicate IsMatch(e: Expr) { e.Equals? || e.Unfragmented? || e.RawBytes? }

  predicate IsVerdict(e: Expr) { e == Accept || e == Drop }

  datatype Rule = Rule(family: Family, hook: Hook, exprs: seq<Expr>)

  datatype Verdict = Accepted | Dropped

  /** A header field exists only inside its protocol, as nft's implicit dependencies say. */
  predicate Present(p: Packet, f: Field) {
    match f
    case IpSaddr | IpDaddr | IpFragOff => p.field(EtherType) == ETHER_IP
    case TcpSport | TcpDport => p.field(L4Proto) == PROTO_TCP
    case ArpOperation | ArpSaddrEther | ArpSaddrIp | ArpDaddrIp => p.field(EtherType) == ETHER_ARP
    case _ => true
  }

  predicate Holds(p: Packet, e: Expr) {
    match e
    case Equals(f, v) => Present(p, f) && p.field(f) == v
    case Unfragmented => Present(p, IpFragOff) && p.field(IpFragOff) % 16384 == 0
    case RawBytes(at, bs) => at + |bs| <= |p.raw| && p.raw[at..at + |bs|] == bs
    case _ => true
  }

  /** Left to right: a failed match ends the rule, a counter counts, a verdict decides. */
  datatype Outcome = Outcome(counted: bool, verdict: Option<Verdict>)

  function RunRule(exprs: seq<Expr>, p: Packet): Outcome {
    if exprs == [] then Outcome(false, None)
    else
      match exprs[0]
      case Accept => Outcome(false, Some(Accepted))
      case Drop => Outcome(false, Some(Dropped))
      case Counter => RunRule(exprs[1..], p).(counted := true)
      case _ => if Holds(p, exprs[0]) then RunRule(exprs[1..], p) else Outcome(false, None)
  }

  predicate AllHold(p: Packet, matches: seq<Expr>) { forall i | 0 <= i < |matches| :: Holds(p, matches[i]) }

  predicate AllMatches(exprs: seq<Expr>) { forall i | 0 <= i < |exprs| :: IsMatch(exprs[i]) }

  lemma AllHoldCons(p: Packet, e: Expr, rest: seq<Expr>)
    ensures AllHold(p, [e] + rest) <==> Holds(p, e) && AllHold(p, rest)
    ensures AllMatches([e] + rest) <==> IsMatch(e) && AllMatches(rest)
  {
    var all := [e] + rest;
    assert all[0] == e && forall i | 0 <= i < |rest| :: rest[i] == all[i + 1];
  }

  /** A rule that is a conjunction of matches in front of a tail. */
  lemma {:induction false} RunMatches(matches: seq<Expr>, tail: seq<Expr>, p: Packet)
    requires AllMatches(matches)
    ensures RunRule(matches + tail, p) == if AllHold(p, matches) then RunRule(tail, p) else Outcome(false, None)
  {
    if matches == [] {
      assert matches + tail == tail;
    } else {
      assert (matches + tail)[1..] == matches[1..] + tail;
      RunMatches(matches[1..], tail, p);
      assert forall i | 0 < i < |matches| :: matches[i] == matches[1..][i - 1];
    }
  }

  /** The way of one packet through one chain: the verdict if some rule gave one, and the
      positions (counted from `n`) of the rules whose counter it moved. */
  datatype Path = Path(verdict: Option<Verdict>, hits: set<nat>)

  predicate InChain(r: Rule, family: Family, hook: Hook) { r.family == family && r.hook == hook }

  function Walk(rules: seq<Rule>, family: Family, hook: Hook, p: Packet, n: nat): Path {
    if rules == [] then Path(None, {})
    else if !InChain(rules[0], family, hook) then Walk(rules[1..], family, hook, p, n + 1)
    else
      var o := RunRule(rules[0].exprs, p);
      var hit := if o.counted then {n} else {};
      if o.verdict.Some? then Path(o.verdict, hit)
      else
        var rest := Walk(rules[1..], family, hook, p, n + 1);
        Path(rest.verdict, hit + rest.hits)
  }

  lemma WalkCons(r: Rule, rest: seq<Rule>, family: Family, hook: Hook, p: Packet, n: nat)
    ensures Walk([r] + rest, family, hook, p, n) ==
            var after := Walk(rest, family, hook, p, n + 1);
            if !InChain(r, family, hook) then after
            else
              var o := RunRule(r.exprs, p);
              var hit := if o.counted then {n} else {};
              if o.verdict.Some? then Path(o.verdict, hit) else Path(after.verdict, hit + after.hits)
  {
    assert ([r] + rest)[1..] == rest;
  }

  /** A bridge chain drops by default, an inet chain accepts. */
  function Policy(family: Family): Verdict { if family == Bridge then Dropped else Accepted }

  function Judge(rules: seq<Rule>, family: Family, hook: Hook, p: Packet): Verdict {
    match Walk(rules, family, hook, p, 0).verdict
    case Some(v) => v
    case None => Policy(family)
  }

  lemma {:induction false} WalkSplits(a: seq<Rule>, b: seq<Rule>, family: Family, hook: Hook, p: Packet, n: nat)
    ensures var left := Walk(a, family, hook, p, n);
            Walk(a + b, family, hook, p, n)
            == if left.verdict.Some? then left
               else var right := Walk(b, family, hook, p, n + |a|); Path(right.verdict, left.hits + right.hits)
    decreases |a|
  {
    if a == [] {
      assert a + b == b;
    } else {
      assert (a + b)[1..] == a[1..] + b;
      WalkSplits(a[1..], b, family, hook, p, n + 1);
    }
  }

  lemma {:induction false} HitsAreInRange(rules: seq<Rule>, family: Family, hook: Hook, p: Packet, n: nat)
    ensures forall k | k in Walk(rules, family, hook, p, n).hits ::
              n <= k < n + |rules| && InChain(rules[k - n], family, hook)
    decreases |rules|
  {
    if rules != [] {
      HitsAreInRange(rules[1..], family, hook, p, n + 1);
    }
  }
}
