/**
 Where packets go.  iptables takes the first rule that matches, the driver appends, and nothing
 keeps two endpoints from mapping one port of a gateway.  Over whole fault-free runs a packet
 goes to the endpoint that has been joined longest among those that map it.
 */
module Traffic {
  import opened Types
  import opened Rules
  import opened World
  import opened Handlers
  import opened Agreement
  import opened Conservation
  import opened Forwarding
  import opened RuleOrder
  import F = FaultFree

  /** The two chains that readdress: for packets from outside and from the host itself. */
  datatype Chain = DockerChain | OutputChain

  predicate Matches(chain: Chain, r: Rule, pkt: Packet) {
    match chain
    case DockerChain => r.DockerDnat? && r.proto == pkt.proto && r.gatewayIP == pkt.dst && r.hostPort == pkt.dport
    case OutputChain => r.OutputDnat? && r.proto == pkt.proto && r.gatewayIP == pkt.dst && r.hostPort == pkt.dport
  }

  /** The first rule that matches decides. */
  function Redirect(chain: Chain, rules: seq<Rule>, pkt: Packet): Option<Packet> {
    if rules == [] then None
    else if Matches(chain, rules[0], pkt) then Some(Packet(pkt.proto, rules[0].hostIP, rules[0].port))
    else Redirect(chain, rules[1..], pkt)
  }

  lemma {:induction false} RedirectConcat(chain: Chain, a: seq<Rule>, b: seq<Rule>, pkt: Packet)
    ensures Redirect(chain, a + b, pkt) ==
            if Redirect(chain, a, pkt).Some? then Redirect(chain, a, pkt) else Redirect(chain, b, pkt)
  {
    if a == [] {
      assert a + b == b;
    } else {
      assert (a + b)[1..] == a[1..] + b;
      RedirectConcat(chain, a[1..], b, pkt);
    }
  }

  // -------------------------------------------------------------------------------------
  // The rules that match one packet

  function Matching(chain: Chain, pkt: Packet, rules: seq<Rule>): seq<Rule> {
    if rules == [] then []
    else if Matches(chain, rules[0], pkt) then [rules[0]] + Matching(chain, pkt, rules[1..])
    else Matching(chain, pkt, rules[1..])
  }

  lemma {:induction false} MatchingConcat(chain: Chain, pkt: Packet, a: seq<Rule>, b: seq<Rule>)
    ensures Matching(chain, pkt, a + b) == Matching(chain, pkt, a) + Matching(chain, pkt, b)
  {
    if a == [] {
      assert a + b == b;
    } else {
      assert (a + b)[1..] == a[1..] + b;
      MatchingConcat(chain, pkt, a[1..], b);
    }
  }

  lemma {:induction false} MatchingMember(chain: Chain, pkt: Packet, rules: seq<Rule>, r: Rule)
    ensures r in Matching(chain, pkt, rules) <==> r in rules && Matches(chain, r, pkt)
  {
    if rules != [] {
      assert rules == [rules[0]] + rules[1..];
      MatchingMember(chain, pkt, rules[1..], r);
    }
  }

  lemma {:induction false} MatchingRemove(chain: Chain, pkt: Packet, rules: seq<Rule>, r: Rule)
    ensures Matching(chain, pkt, RemoveFirst(rules, r)) ==
            if Matches(chain, r, pkt) then RemoveFirst(Matching(chain, pkt, rules), r) else Matching(chain, pkt, rules)
  {
    if rules != [] && rules[0] != r {
      MatchingRemove(chain, pkt, rules[1..], r);
      var kept := RemoveFirst(rules[1..], r);
      assert ([rules[0]] + kept)[1..] == kept;
    }
  }

  lemma {:induction false} MatchingRemoveEach(chain: Chain, pkt: Packet, rules: seq<Rule>, gone: seq<Rule>)
    ensures Matching(chain, pkt, RemoveEach(rules, gone)) == RemoveEach(Matching(chain, pkt, rules), Matching(chain, pkt, gone))
    decreases |gone|
  {
    if gone != [] {
      MatchingRemove(chain, pkt, rules, gone[0]);
      MatchingRemoveEach(chain, pkt, RemoveFirst(rules, gone[0]), gone[1..]);
      assert ([gone[0]] + Matching(chain, pkt, gone[1..]))[1..] == Matching(chain, pkt, gone[1..]);
    }
  }

  lemma {:induction false} RedirectMatching(chain: Chain, rules: seq<Rule>, pkt: Packet)
    ensures Redirect(chain, Matching(chain, pkt, rules), pkt) == Redirect(chain, rules, pkt)
  {
    if rules != [] {
      RedirectMatching(chain, rules[1..], pkt);
    }
  }

  /** Networks' masquerading rules match nothing. */
  lemma OthersMatchingSame(chain: Chain, pkt: Packet, rules: seq<Rule>, rules': seq<Rule>, host: multiset<Rule>)
    requires OtherRules(rules, rules', host)
    ensures Matching(chain, pkt, rules') == Matching(chain, pkt, rules)
  {
    if r: Rule :| r.MasqueradeOut? && rules' == [r] + rules {
      assert rules'[1..] == rules;
    } else if r: Rule :| r.MasqueradeOut? && multiset(rules)[r] > host[r] && rules' == RemoveFirst(rules, r) {
      MatchingRemove(chain, pkt, rules, r);
    }
  }

  ghost function MatchingBlocks(chain: Chain, pkt: Packet, eps: map<Id, seq<Rule>>): map<Id, seq<Rule>> {
    map e | e in eps :: Matching(chain, pkt, eps[e])
  }

  lemma MatchingBlocksWith(chain: Chain, pkt: Packet, eps: map<Id, seq<Rule>>, e: Id, block: seq<Rule>)
    ensures MatchingBlocks(chain, pkt, eps[e := block]) == MatchingBlocks(chain, pkt, eps)[e := Matching(chain, pkt, block)]
    ensures MatchingBlocks(chain, pkt, eps - {e}) == MatchingBlocks(chain, pkt, eps) - {e}
  {
    hide Matching;
  }

  // -------------------------------------------------------------------------------------
  // Runs

  /** No join finds in place a rule that already takes this packet where one of its own would. */
  ghost predicate FreshFor(sys: Sys, op: Op, chain: Chain, pkt: Packet) {
    op.JoinContainer? && op.id in sys.state.networks ==>
      forall r :: r in JoinRules(sys.state.networks[op.id].bridge, op.joined) && Matches(chain, r, pkt) ==> r !in sys.state.rules
  }

  ghost predicate AlwaysFreshFor(sys: Sys, events: seq<Event>, chain: Chain, pkt: Packet)
    decreases |events|
  {
    events != [] ==>
      FreshFor(sys, events[0].op, chain, pkt) && AlwaysFreshFor(Next(sys, events[0].op, events[0].luck), events[1..], chain, pkt)
  }

  /** Of the rules that match the packet: the host's and then the joined endpoints', in order. */
  ghost predicate InOrder(sys: Sys, chain: Chain, pkt: Packet, base: seq<Rule>, order: seq<Id>) {
    && Ordered(MatchingBlocks(chain, pkt, ClaimsOf(sys).eps), Matching(chain, pkt, sys.state.rules), Matching(chain, pkt, base), order)
    && (forall e :: e in order <==> e in sys.docker.eps && sys.docker.eps[e].joined)
  }

  lemma JoinInOrder(sys: Sys, id: Id, e: Id, j: Joined, chain: Chain, pkt: Packet, base: seq<Rule>, order: seq<Id>)
    requires Agree(sys) && Legal(sys, JoinContainer(id, e, j)) && FreshFor(sys, JoinContainer(id, e, j), chain, pkt)
    requires InOrder(sys, chain, pkt, base, order)
    ensures InOrder(Next(sys, JoinContainer(id, e, j), NoFault), chain, pkt, base, order + [e])
  {
    hide Agree, Next, ClaimsOf, JoinRules, Ordered, Matches;
    JoinRulesNext(sys, id, e, j);
    var block := JoinRules(sys.state.networks[id].bridge, j);
    JoinBlocks(ClaimsOf(sys).eps, sys.state.rules, e, block, chain, pkt, base, order);
    hide Matching, MatchingBlocks;
  }

  lemma JoinBlocks(c: map<Id, seq<Rule>>, rules: seq<Rule>, e: Id, block: seq<Rule>, chain: Chain, pkt: Packet, base: seq<Rule>, order: seq<Id>)
    requires Ordered(MatchingBlocks(chain, pkt, c), Matching(chain, pkt, rules), Matching(chain, pkt, base), order)
    requires e in c && c[e] == [] && e !in order && forall r :: r in block && Matches(chain, r, pkt) ==> r !in rules
    ensures Ordered(MatchingBlocks(chain, pkt, c[e := block]), Matching(chain, pkt, rules + block), Matching(chain, pkt, base), order + [e])
  {
    assert MatchingBlocks(chain, pkt, c)[e] == [];
    StillFresh(chain, pkt, rules, block);
    hide Matching, Matches, Ordered;
    MatchingConcat(chain, pkt, rules, block);
    MatchingBlocksWith(chain, pkt, c, e, block);
    JoinOrdered(MatchingBlocks(chain, pkt, c), Matching(chain, pkt, rules), Matching(chain, pkt, base), order, e, Matching(chain, pkt, block));
  }

  lemma StillFresh(chain: Chain, pkt: Packet, rules: seq<Rule>, block: seq<Rule>)
    requires forall r :: r in block && Matches(chain, r, pkt) ==> r !in rules
    ensures forall r :: r in Matching(chain, pkt, block) ==> r !in Matching(chain, pkt, rules)
  {
    forall r | r in Matching(chain, pkt, block) ensures r !in Matching(chain, pkt, rules) {
      MatchingMember(chain, pkt, block, r);
      MatchingMember(chain, pkt, rules, r);
    }
  }

  lemma LeaveInOrder(sys: Sys, id: Id, e: Id, host: multiset<Rule>, chain: Chain, pkt: Packet, base: seq<Rule>, order: seq<Id>)
    requires Agree(sys) && Conserved(sys, host) && Legal(sys, LeaveContainer(id, e)) && InOrder(sys, chain, pkt, base, order)
    ensures InOrder(Next(sys, LeaveContainer(id, e), NoFault), chain, pkt, base, Without(order, e))
  {
    hide Agree, Conserved, Next, ClaimsOf, Without, Blocks, RemoveEach, Separate, Matching;
    LeaveRulesNext(sys, id, e, host);
    var c, rules := ClaimsOf(sys).eps, sys.state.rules;
    MatchingRemoveEach(chain, pkt, rules, c[e]);
    MatchingBlocksWith(chain, pkt, c, e, []);
    LeftMembers(order, e);
    LeaveOrdered(MatchingBlocks(chain, pkt, c), Matching(chain, pkt, rules), Matching(chain, pkt, base), order, e);
    hide Ordered;
  }

  lemma ReserveInOrder(sys: Sys, id: Id, e: Id, chain: Chain, pkt: Packet, base: seq<Rule>, order: seq<Id>)
    requires Agree(sys) && Legal(sys, ReservePort(id, e)) && InOrder(sys, chain, pkt, base, order)
    ensures InOrder(Next(sys, ReservePort(id, e), NoFault), chain, pkt, base, order)
  {
    hide Agree, Next, ClaimsOf, Ordered;
    ReserveRulesNext(sys, id, e);
    ReserveBlocks(ClaimsOf(sys).eps, sys.state.rules, e, chain, pkt, base, order);
    hide Matching, MatchingBlocks;
  }

  lemma ReserveBlocks(c: map<Id, seq<Rule>>, rules: seq<Rule>, e: Id, chain: Chain, pkt: Packet, base: seq<Rule>, order: seq<Id>)
    requires Ordered(MatchingBlocks(chain, pkt, c), Matching(chain, pkt, rules), Matching(chain, pkt, base), order) && e !in c
    ensures Ordered(MatchingBlocks(chain, pkt, c[e := []]), Matching(chain, pkt, rules), Matching(chain, pkt, base), order)
  {
    assert Matching(chain, pkt, []) == [];
    hide Matching, Ordered;
    MatchingBlocksWith(chain, pkt, c, e, []);
    ReserveOrdered(MatchingBlocks(chain, pkt, c), Matching(chain, pkt, rules), Matching(chain, pkt, base), order, e);
  }

  lemma StepInOrder(sys: Sys, op: Op, host: multiset<Rule>, chain: Chain, pkt: Packet, base: seq<Rule>, order: seq<Id>)
    requires F.Inv(sys, host) && Legal(sys, op) && FreshFor(sys, op, chain, pkt) && InOrder(sys, chain, pkt, base, order)
    ensures InOrder(Next(sys, op, NoFault), chain, pkt, base, OrderNext(order, op))
  {
    hide Agree, Conserved, Legal, Next, FreshFor, Ordered, Matching, ClaimsOf, OtherRules;
    match op
    case ReservePort(id, e) => ReserveInOrder(sys, id, e, chain, pkt, base, order);
    case JoinContainer(id, e, j) => JoinInOrder(sys, id, e, j, chain, pkt, base, order);
    case LeaveContainer(id, e) => LeaveInOrder(sys, id, e, host, chain, pkt, base, order);
    case _ =>
      OthersRulesNext(sys, op, host);
      OthersMatchingSame(chain, pkt, sys.state.rules, Next(sys, op, NoFault).state.rules, host);
  }

  lemma {:induction false} RunInOrder(sys: Sys, events: seq<Event>, host: multiset<Rule>, chain: Chain, pkt: Packet, base: seq<Rule>, order: seq<Id>)
    requires F.Inv(sys, host) && LegalRun(sys, events) && Handlers.FaultFree(events) && AlwaysFreshFor(sys, events, chain, pkt)
    requires InOrder(sys, chain, pkt, base, order)
    ensures InOrder(Run(sys, events), chain, pkt, base, JoinOrder(order, events))
    decreases |events|
  {
    hide F.Inv, Legal, Next, FreshFor, InOrder;
    if events != [] {
      StepInOrder(sys, events[0].op, host, chain, pkt, base, order);
      F.StepInv(sys, events[0].op, host);
      RunInOrder(Next(sys, events[0].op, NoFault), events[1..], host, chain, pkt, base, OrderNext(order, events[0].op));
    }
  }

  // -------------------------------------------------------------------------------------
  // Where a packet goes

  ghost predicate MapsPacket(j: Joined, m: PortMap, pkt: Packet) {
    pkt == Packet(if m.proto == 17 then "udp" else "tcp", j.gatewayIP, m.hostPort)
  }

  /** The join an endpoint completed. */
  ghost function JoinOf(sys: Sys, e: Id): Option<Joined> {
    if e in sys.state.ofPorts then sys.state.ofPorts[e].joined else None
  }

  ghost predicate EndpointMaps(sys: Sys, e: Id, pkt: Packet) {
    var j := JoinOf(sys, e);
    j.Some? && exists i :: 0 <= i < |j.value.maps| && MapsPacket(j.value, j.value.maps[i], pkt)
  }

  /** Mapping i is the first of this join's that maps the packet. */
  ghost predicate FirstOf(j: Joined, i: nat, pkt: Packet) {
    && i < |j.maps| && MapsPacket(j, j.maps[i], pkt)
    && forall k :: 0 <= k < i ==> !MapsPacket(j, j.maps[k], pkt)
  }

  /** The endpoint at place k has been joined longest among those that map the packet, and
      mapping i is the first of its mappings that does. */
  ghost predicate Serves(sys: Sys, order: seq<Id>, k: nat, i: nat, pkt: Packet) {
    && k < |order| && JoinOf(sys, order[k]).Some? && FirstOf(JoinOf(sys, order[k]).value, i, pkt)
    && forall h :: 0 <= h < k ==> !EndpointMaps(sys, order[h], pkt)
  }

  /** Where a join's own rules send the packet: to the first of its mappings that maps it. */
  lemma {:induction false} RedirectJoin(chain: Chain, bridge: string, j: Joined, pkt: Packet)
    ensures var r := Redirect(chain, JoinRules(bridge, j), pkt);
            && (r.Some? <==> exists i :: 0 <= i < |j.maps| && MapsPacket(j, j.maps[i], pkt))
            && (r.Some? ==> exists i: nat :: FirstOf(j, i, pkt))
            && (forall i: nat :: FirstOf(j, i, pkt) ==> r == Some(Packet(pkt.proto, j.hostIP, j.maps[i].port)))
    decreases |j.maps|
  {
    if j.maps != [] {
      var rest := j.(maps := j.maps[1..]);
      RedirectConcat(chain, MapRules(bridge, j.gatewayIP, j.hostIP, j.maps[0]), JoinRules(bridge, rest), pkt);
      RedirectBlock(chain, bridge, j, pkt);
      RedirectJoin(chain, bridge, rest, pkt);
      hide Redirect, RulesFor, JoinRules, MapRules;
      FirstOfRest(j, pkt);
    }
  }

  lemma FirstOfRest(j: Joined, pkt: Packet)
    requires j.maps != []
    ensures var rest := j.(maps := j.maps[1..]);
            && (MapsPacket(j, j.maps[0], pkt) ==> FirstOf(j, 0, pkt) && forall i: nat :: FirstOf(j, i, pkt) ==> i == 0)
            && (!MapsPacket(j, j.maps[0], pkt) ==> forall i: nat :: FirstOf(rest, i, pkt) ==> FirstOf(j, i + 1, pkt))
            && (!MapsPacket(j, j.maps[0], pkt) ==> forall i: nat :: FirstOf(j, i, pkt) ==> i > 0 && FirstOf(rest, i - 1, pkt))
            && ((exists i :: 0 <= i < |j.maps| && MapsPacket(j, j.maps[i], pkt)) <==>
                MapsPacket(j, j.maps[0], pkt) || exists i :: 0 <= i < |rest.maps| && MapsPacket(rest, rest.maps[i], pkt))
  {
    var rest := j.(maps := j.maps[1..]);
    assert forall i :: 0 <= i < |rest.maps| ==> rest.maps[i] == j.maps[i + 1];
    if i :| 0 < i < |j.maps| && MapsPacket(j, j.maps[i], pkt) {
      assert MapsPacket(rest, rest.maps[i - 1], pkt);
    }
    if i :| 0 <= i < |rest.maps| && MapsPacket(rest, rest.maps[i], pkt) {
      assert MapsPacket(j, j.maps[i + 1], pkt);
    }
  }

  lemma RedirectBlock(chain: Chain, bridge: string, j: Joined, pkt: Packet)
    requires j.maps != []
    ensures Redirect(chain, MapRules(bridge, j.gatewayIP, j.hostIP, j.maps[0]), pkt) ==
            if MapsPacket(j, j.maps[0], pkt) then Some(Packet(pkt.proto, j.hostIP, j.maps[0].port)) else None
  {
    var r := MapRules(bridge, j.gatewayIP, j.hostIP, j.maps[0]);
    assert [r[3]][1..] == [] && Redirect(chain, [r[3]], pkt) == None;
    assert [r[2], r[3]][1..] == [r[3]] && Redirect(chain, [r[2], r[3]], pkt) == None;
    assert [r[1], r[2], r[3]][1..] == [r[2], r[3]];
    assert r[1..] == [r[1], r[2], r[3]];
  }

  /** All these endpoints are joined, and their rules are those of their joins. */
  ghost predicate AllJoined(sys: Sys, order: seq<Id>) {
    forall e :: e in order ==>
      && e in sys.docker.eps && sys.docker.eps[e].network in sys.state.networks && JoinOf(sys, e).Some?
  }

  ghost function TargetOf(sys: Sys, e: Id, i: nat, pkt: Packet): Packet
    requires JoinOf(sys, e).Some? && i < |JoinOf(sys, e).value.maps|
  {
    var j := JoinOf(sys, e).value;
    Packet(pkt.proto, j.hostIP, j.maps[i].port)
  }

  /** Where the blocks of these endpoints send the packet: to the first endpoint that maps it. */
  lemma {:induction false} RedirectBlocks(chain: Chain, sys: Sys, order: seq<Id>, pkt: Packet)
    requires AllJoined(sys, order)
    ensures var r := Redirect(chain, Blocks(MatchingBlocks(chain, pkt, ClaimsOf(sys).eps), order), pkt);
            && (r.Some? ==> exists k: nat, i: nat :: Serves(sys, order, k, i, pkt))
            && (forall k: nat, i: nat :: Serves(sys, order, k, i, pkt) ==> r == Some(TargetOf(sys, order[k], i, pkt)))
  {
    if order != [] {
      var e, rest := order[0], order[1..];
      assert e in order;
      assert forall x :: x in rest ==> x in order;
      var j, bridge := JoinOf(sys, e).value, sys.state.networks[sys.docker.eps[e].network].bridge;
      assert ClaimsOf(sys).eps[e] == JoinRules(bridge, j);
      var blocks := MatchingBlocks(chain, pkt, ClaimsOf(sys).eps);
      assert blocks[e] == Matching(chain, pkt, JoinRules(bridge, j));
      RedirectConcat(chain, blocks[e], Blocks(blocks, rest), pkt);
      RedirectMatching(chain, JoinRules(bridge, j), pkt);
      RedirectJoin(chain, bridge, j, pkt);
      RedirectBlocks(chain, sys, rest, pkt);
      hide Redirect, Blocks, JoinRules, ClaimsOf, AllJoined, Matching;
      ServesRest(sys, order, pkt);
    }
  }

  lemma ServesRest(sys: Sys, order: seq<Id>, pkt: Packet)
    requires order != [] && JoinOf(sys, order[0]).Some?
    ensures var j := JoinOf(sys, order[0]).value;
            && (forall i: nat :: FirstOf(j, i, pkt) ==> Serves(sys, order, 0, i, pkt))
            && (forall i: nat :: Serves(sys, order, 0, i, pkt) ==> FirstOf(j, i, pkt))
            && (EndpointMaps(sys, order[0], pkt) ==> forall k: nat, i: nat :: Serves(sys, order, k, i, pkt) ==> k == 0)
            && (!EndpointMaps(sys, order[0], pkt) ==>
                  forall k: nat, i: nat :: Serves(sys, order[1..], k, i, pkt) ==> Serves(sys, order, k + 1, i, pkt))
            && (forall k: nat, i: nat :: Serves(sys, order, k, i, pkt) && k > 0 ==> Serves(sys, order[1..], k - 1, i, pkt))
  {
    hide FirstOf, EndpointMaps, JoinOf;
    var rest := order[1..];
    assert forall h :: 0 <= h < |rest| ==> rest[h] == order[h + 1];
    forall k: nat, i: nat | Serves(sys, rest, k, i, pkt) && !EndpointMaps(sys, order[0], pkt) ensures Serves(sys, order, k + 1, i, pkt) {
      forall h | 0 <= h < k + 1 ensures !EndpointMaps(sys, order[h], pkt) {
        assert h > 0 ==> order[h] == rest[h - 1];
      }
    }
  }

  /** Over every fault-free run in which no join finds in place a rule that already takes the packet
      where one of its own would: a packet the host's own rules do not take goes, from outside and
      from the host alike, exactly where the first mapping of the longest joined endpoint that maps
      it says. */
  lemma TrafficTheorem(sys: Sys, events: seq<Event>, chain: Chain, pkt: Packet, to: Packet)
    requires Initial(sys) && LegalRun(sys, events) && Handlers.FaultFree(events) && AlwaysFreshFor(sys, events, chain, pkt)
    ensures var last, order := Run(sys, events), JoinOrder([], events);
            if Redirect(chain, sys.state.rules, pkt).Some? then
              Redirect(chain, last.state.rules, pkt) == Redirect(chain, sys.state.rules, pkt)
            else
              (Redirect(chain, last.state.rules, pkt) == Some(to) <==>
                 exists k: nat, i: nat :: Serves(last, order, k, i, pkt) && to == TargetOf(last, order[k], i, pkt))
  {
    var base := sys.state.rules;
    F.InitialInv(sys);
    InitialInOrder(sys, chain, pkt);
    RunInOrder(sys, events, multiset(base), chain, pkt, base, []);
    F.FaultFreeTheorem(sys, events);
    hide LegalRun, Run, Initial, AlwaysFreshFor;
    PacketGoes(Run(sys, events), base, JoinOrder([], events), chain, pkt, to);
  }

  lemma InitialInOrder(sys: Sys, chain: Chain, pkt: Packet)
    requires Initial(sys)
    ensures InOrder(sys, chain, pkt, sys.state.rules, [])
  {
    assert MatchingBlocks(chain, pkt, ClaimsOf(sys).eps) == map[];
    assert Matching(chain, pkt, sys.state.rules) + [] == Matching(chain, pkt, sys.state.rules);
  }

  lemma PacketGoes(sys: Sys, base: seq<Rule>, order: seq<Id>, chain: Chain, pkt: Packet, to: Packet)
    requires Agree(sys) && InOrder(sys, chain, pkt, base, order)
    ensures if Redirect(chain, base, pkt).Some? then Redirect(chain, sys.state.rules, pkt) == Redirect(chain, base, pkt)
            else (Redirect(chain, sys.state.rules, pkt) == Some(to) <==>
                    exists k: nat, i: nat :: Serves(sys, order, k, i, pkt) && to == TargetOf(sys, order[k], i, pkt))
  {
    assert AllJoined(sys, order) by {
      hide NetworksOk, OvsOk, OwnersOk, Veth, ClaimsOf, Ordered;
      forall e | e in order ensures e in sys.docker.eps && sys.docker.eps[e].network in sys.state.networks && JoinOf(sys, e).Some? {
        assert EndpointOk(sys, e);
      }
    }
    hide Agree, Redirect, ClaimsOf, AllJoined, Serves, Matching;
    RedirectMatching(chain, sys.state.rules, pkt);
    RedirectMatching(chain, base, pkt);
    RedirectConcat(chain, Matching(chain, pkt, base), Blocks(MatchingBlocks(chain, pkt, ClaimsOf(sys).eps), order), pkt);
    RedirectBlocks(chain, sys, order, pkt);
  }

  /** Two endpoints that map one port: the second gets nothing while the first is joined. */
  lemma SecondMappingShadowed(bridge: string, first: Joined, second: Joined, pkt: Packet)
    requires first.maps == [PortMap(8080, 80, 6)] && second.maps == [PortMap(8080, 80, 6)] && first.hostIP != second.hostIP
    requires first.gatewayIP == second.gatewayIP && pkt == Packet("tcp", first.gatewayIP, 8080)
    ensures Redirect(DockerChain, JoinRules(bridge, first) + JoinRules(bridge, second), pkt) == Some(Packet("tcp", first.hostIP, 80))
    ensures HasRedirect(JoinRules(bridge, first) + JoinRules(bridge, second), pkt, Packet("tcp", second.hostIP, 80))
  {
    RedirectConcat(DockerChain, JoinRules(bridge, first), JoinRules(bridge, second), pkt);
    RedirectJoin(DockerChain, bridge, first, pkt);
    assert FirstOf(first, 0, pkt);
    assert MapsPacket(first, first.maps[0], pkt);
    RulesForIff(bridge, second.gatewayIP, second.hostIP, second.maps, DockerDnat("tcp", pkt.dst, 8080, second.hostIP, 80));
    var four := MapRules(bridge, second.gatewayIP, second.hostIP, second.maps[0]);
    assert four[0] in four;
  }

  /** Why such a rule must be new: deleting takes the first equal rule, so one that somebody else has
      too changes places, and with it the container that is served. */
  lemma EqualRuleMoves(r: Rule, other: Rule, pkt: Packet)
    requires Matches(DockerChain, r, pkt) && Matches(DockerChain, other, pkt) && (r.hostIP != other.hostIP || r.port != other.port)
    ensures RemoveEach([r, other, r], [r]) == [other, r]
    ensures Redirect(DockerChain, [r, other, r], pkt) != Redirect(DockerChain, [other, r], pkt)
  {
    assert [r, other, r][1..] == [other, r] && [r][1..] == [];
  }
}
