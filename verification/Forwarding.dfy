/**
 Which rules are there, and for whom: over whole fault-free runs, the rules of a mapping are
 in place exactly while an endpoint that has it is joined.  Where a packet goes when several
 endpoints map one port is the subject of module Traffic.
 */
module Forwarding {
  import opened Types
  import opened Rules
  import opened World
  import opened Handlers
  import opened Conservation
  import FaultFree

  datatype Packet = Packet(proto: string, dst: string, dport: nat)

  /** There is a rule that readdresses packets arriving from outside. */
  predicate HasRedirect(rules: seq<Rule>, pkt: Packet, to: Packet) {
    pkt.proto == to.proto && DockerDnat(pkt.proto, pkt.dst, pkt.dport, to.dst, to.dport) in rules
  }

  /** There is a rule that readdresses packets from the host itself. */
  predicate HasLocalRedirect(rules: seq<Rule>, pkt: Packet, to: Packet) {
    pkt.proto == to.proto && OutputDnat(pkt.proto, pkt.dst, pkt.dport, to.dst, to.dport) in rules
  }

  /** A packet from a container to itself, through the gateway, comes back from the gateway. */
  predicate Hairpinned(rules: seq<Rule>, pkt: Packet) {
    Hairpin(pkt.proto, pkt.dst, pkt.dport) in rules
  }

  /** The filter lets a readdressed packet onto the bridge; its rules match tcp only. */
  predicate LetsThrough(rules: seq<Rule>, bridge: string, pkt: Packet) {
    pkt.proto == "tcp" && ForwardAccept(bridge, pkt.dst, pkt.dport) in rules
  }

  /** A mapping takes pkt to the container's own address; protocol 17 is udp and every other is tcp. */
  ghost predicate Asks(j: Joined, m: PortMap, pkt: Packet, to: Packet) {
    var proto := if m.proto == 17 then "udp" else "tcp";
    pkt == Packet(proto, j.gatewayIP, m.hostPort) && to == Packet(proto, j.hostIP, m.port)
  }

  /** Endpoint e is joined with this join, on a network with this bridge. */
  ghost predicate JoinedOn(sys: Sys, e: Id, bridge: string, j: Joined) {
    var d, s := sys.docker, sys.state;
    && e in d.eps && d.eps[e].network in s.networks && s.networks[d.eps[e].network].bridge == bridge
    && e in s.ofPorts && s.ofPorts[e].joined == Some(j)
  }

  ghost predicate Mapped(sys: Sys, bridge: string, pkt: Packet, to: Packet) {
    exists e, j, i :: JoinedOn(sys, e, bridge, j) && 0 <= i < |j.maps| && Asks(j, j.maps[i], pkt, to)
  }

  // -------------------------------------------------------------------------------------
  // Rules and claims

  /** A rule is in the list exactly if it is one of some mapping's four. */
  lemma {:induction false} RulesForIff(bridge: string, gatewayIP: string, hostIP: string, maps: seq<PortMap>, r: Rule)
    ensures r in RulesFor(bridge, gatewayIP, hostIP, maps) <==>
            exists i :: 0 <= i < |maps| && r in MapRules(bridge, gatewayIP, hostIP, maps[i])
  {
    if maps != [] {
      RulesForIff(bridge, gatewayIP, hostIP, maps[1..], r);
      if r in RulesFor(bridge, gatewayIP, hostIP, maps[1..]) {
        var i :| 0 <= i < |maps[1..]| && r in MapRules(bridge, gatewayIP, hostIP, maps[1..][i]);
        assert maps[i + 1] == maps[1..][i];
      }
      if i :| 0 < i < |maps| && r in MapRules(bridge, gatewayIP, hostIP, maps[i]) {
        assert maps[1..][i - 1] == maps[i];
      }
    }
  }

  ghost predicate Claimed(sys: Sys, r: Rule) {
    exists e, b, j :: JoinedOn(sys, e, b, j) && r in JoinRules(b, j)
  }

  /** A mapping's rule the host did not have itself is there exactly while somebody claims it. */
  lemma ClaimedIff(sys: Sys, base: multiset<Rule>, r: Rule)
    requires Conserved(sys, base) && r !in base && !r.MasqueradeOut?
    ensures r in sys.state.rules <==> Claimed(sys, r)
  {
    hide JoinRules;
    var c := ClaimsOf(sys);
    assert NatClaims(c.nats, r) == {};
    assert multiset(sys.state.rules)[r] == |EndpointClaims(c.eps, r)|;
    if r in sys.state.rules {
      assert EndpointClaims(c.eps, r) != {};
      var claim :| claim in EndpointClaims(c.eps, r);
      var e, i := claim.endpoint, claim.index;
      assert EndpointRules(sys, e)[i] == r;
      var b, j := sys.state.networks[sys.docker.eps[e].network].bridge, sys.state.ofPorts[e].joined.value;
      assert JoinedOn(sys, e, b, j) && r in JoinRules(b, j);
    }
    if Claimed(sys, r) {
      var e, b, j :| JoinedOn(sys, e, b, j) && r in JoinRules(b, j);
      assert c.eps[e] == JoinRules(b, j);
      var i :| 0 <= i < |c.eps[e]| && c.eps[e][i] == r;
      assert MapClaim(e, i) in EndpointClaims(c.eps, r);
    }
  }

  /** Which mapping a claim comes from. */
  lemma ClaimedBy(sys: Sys, r: Rule) returns (e: Id, b: string, j: Joined, i: nat)
    requires Claimed(sys, r)
    ensures JoinedOn(sys, e, b, j) && i < |j.maps| && r in MapRules(b, j.gatewayIP, j.hostIP, j.maps[i])
  {
    e, b, j :| JoinedOn(sys, e, b, j) && r in JoinRules(b, j);
    RulesForIff(b, j.gatewayIP, j.hostIP, j.maps, r);
    i :| 0 <= i < |j.maps| && r in MapRules(b, j.gatewayIP, j.hostIP, j.maps[i]);
  }

  lemma MappedClaims(sys: Sys, bridge: string, pkt: Packet, to: Packet)
    requires Mapped(sys, bridge, pkt, to)
    ensures Claimed(sys, DockerDnat(pkt.proto, pkt.dst, pkt.dport, to.dst, to.dport))
    ensures Claimed(sys, OutputDnat(pkt.proto, pkt.dst, pkt.dport, to.dst, to.dport))
    ensures Claimed(sys, Hairpin(to.proto, to.dst, to.dport))
    ensures Claimed(sys, ForwardAccept(bridge, to.dst, to.dport))
  {
    var e, j, i :| JoinedOn(sys, e, bridge, j) && 0 <= i < |j.maps| && Asks(j, j.maps[i], pkt, to);
    forall r | r in MapRules(bridge, j.gatewayIP, j.hostIP, j.maps[i]) ensures Claimed(sys, r) {
      RulesForIff(bridge, j.gatewayIP, j.hostIP, j.maps, r);
      assert r in JoinRules(bridge, j);
    }
    var rules := MapRules(bridge, j.gatewayIP, j.hostIP, j.maps[i]);
    assert rules[0] in rules && rules[1] in rules && rules[2] in rules && rules[3] in rules;
  }

  // -------------------------------------------------------------------------------------
  // The theorem

  /** The host had no rule of its own that already did this. */
  ghost predicate NotTheHosts(base: seq<Rule>, pkt: Packet, to: Packet) {
    !HasRedirect(base, pkt, to) && !HasLocalRedirect(base, pkt, to)
  }

  /** In every state of a fault-free run, the rules that readdress a gateway's port to a
      container's port, from outside and from the host alike, are there exactly while some joined
      endpoint has that mapping; and then the container reaches itself that way too, and the
      filter lets the packet onto the bridge exactly if it is tcp. */
  lemma ForwardingTheorem(sys: Sys, events: seq<Event>, pkt: Packet, to: Packet)
    requires Initial(sys) && LegalRun(sys, events) && Handlers.FaultFree(events)
    requires pkt.proto == to.proto && NotTheHosts(sys.state.rules, pkt, to)
    ensures var last := Run(sys, events);
            && (HasRedirect(last.state.rules, pkt, to) <==> exists b :: Mapped(last, b, pkt, to))
            && (HasLocalRedirect(last.state.rules, pkt, to) <==> exists b :: Mapped(last, b, pkt, to))
            && (forall b :: Mapped(last, b, pkt, to) ==>
                  Hairpinned(last.state.rules, to) && (LetsThrough(last.state.rules, b, to) <==> to.proto == "tcp"))
  {
    FaultFree.FaultFreeTheorem(sys, events);
    ForwardingOf(Run(sys, events), sys.state.rules, pkt, to);
  }

  lemma ForwardingOf(sys: Sys, host: seq<Rule>, pkt: Packet, to: Packet)
    requires Conserved(sys, multiset(host)) && pkt.proto == to.proto && NotTheHosts(host, pkt, to)
    ensures HasRedirect(sys.state.rules, pkt, to) <==> exists b :: Mapped(sys, b, pkt, to)
    ensures HasLocalRedirect(sys.state.rules, pkt, to) <==> exists b :: Mapped(sys, b, pkt, to)
    ensures forall b :: Mapped(sys, b, pkt, to) ==>
              Hairpinned(sys.state.rules, to) && (LetsThrough(sys.state.rules, b, to) <==> to.proto == "tcp")
  {
    hide Conserved, Claimed, Mapped;
    var base := multiset(host);
    var docker := DockerDnat(pkt.proto, pkt.dst, pkt.dport, to.dst, to.dport);
    var output := OutputDnat(pkt.proto, pkt.dst, pkt.dport, to.dst, to.dport);
    ClaimedIff(sys, base, docker);
    ClaimedIff(sys, base, output);
    if Claimed(sys, docker) { DnatIsMapped(sys, docker, pkt, to); }
    if Claimed(sys, output) { DnatIsMapped(sys, output, pkt, to); }
    forall b | Mapped(sys, b, pkt, to)
      ensures Claimed(sys, docker) && Claimed(sys, output)
      ensures Hairpinned(sys.state.rules, to) && (LetsThrough(sys.state.rules, b, to) <==> to.proto == "tcp")
    {
      MappedClaims(sys, b, pkt, to);
      ClaimedPresent(sys, base, Hairpin(to.proto, to.dst, to.dport));
      ClaimedPresent(sys, base, ForwardAccept(b, to.dst, to.dport));
    }
  }

  /** A claimed rule is there even if the host has one like it. */
  lemma ClaimedPresent(sys: Sys, base: multiset<Rule>, r: Rule)
    requires Conserved(sys, base) && Claimed(sys, r) && !r.MasqueradeOut?
    ensures r in sys.state.rules
  {
    if r !in base {
      ClaimedIff(sys, base, r);
    } else {
      assert multiset(sys.state.rules)[r] >= base[r];
    }
  }

  lemma DnatIsMapped(sys: Sys, r: Rule, pkt: Packet, to: Packet)
    requires Claimed(sys, r) && pkt.proto == to.proto
    requires || r == DockerDnat(pkt.proto, pkt.dst, pkt.dport, to.dst, to.dport)
             || r == OutputDnat(pkt.proto, pkt.dst, pkt.dport, to.dst, to.dport)
    ensures exists b :: Mapped(sys, b, pkt, to)
  {
    var e, b, j, i := ClaimedBy(sys, r);
    assert Asks(j, j.maps[i], pkt, to);
    assert Mapped(sys, b, pkt, to);
  }

  /** A udp mapping is readdressed, and then the filter has no rule that lets it through. */
  lemma UdpNotLetThrough(bridge: string, j: Joined, hostPort: nat, port: nat)
    requires j.maps == [PortMap(hostPort, port, 17)]
    ensures var rules := JoinRules(bridge, j);
            var pkt, to := Packet("udp", j.gatewayIP, hostPort), Packet("udp", j.hostIP, port);
            HasRedirect(rules, pkt, to) && !LetsThrough(rules, bridge, to) && ForwardAccept(bridge, j.hostIP, port) in rules
  {
    var rules := JoinRules(bridge, j);
    assert j.maps[1..] == [] && RulesFor(bridge, j.gatewayIP, j.hostIP, []) == [];
    assert rules == MapRules(bridge, j.gatewayIP, j.hostIP, j.maps[0]);
    assert rules[0] in rules && rules[3] in rules;
  }
}
