/**
 The iptables rules that port mappings and NAT networks stand for.  Rules are kept in the
 order in which their chains are searched: -A appends, -I inserts in front, and -D deletes
 the first rule equal to the one given.
 */
module Rules {

  /** A port mapping as Docker passes it: proto is the IP protocol number. */
  datatype PortMap = PortMap(hostPort: nat, port: nat, proto: nat)

  datatype Rule =
    | DockerDnat(proto: string, gatewayIP: string, hostPort: nat, hostIP: string, port: nat)
    | OutputDnat(proto: string, gatewayIP: string, hostPort: nat, hostIP: string, port: nat)
    | Hairpin(proto: string, hostIP: string, port: nat)
    | ForwardAccept(bridge: string, hostIP: string, port: nat)
    | MasqueradeOut(cidr: string)

  function ProtoName(proto: nat): string {
    if proto == 17 then "udp" else "tcp"
  }

  /** The four rules of one mapping, in the order they are issued.  The filter rule says
      tcp whatever the mapping's protocol is, so it does not mention one. */
  function MapRules(bridge: string, gatewayIP: string, hostIP: string, m: PortMap): seq<Rule> {
    var proto := ProtoName(m.proto);
    [DockerDnat(proto, gatewayIP, m.hostPort, hostIP, m.port),
     OutputDnat(proto, gatewayIP, m.hostPort, hostIP, m.port),
     Hairpin(proto, hostIP, m.port),
     ForwardAccept(bridge, hostIP, m.port)]
  }

  function RulesFor(bridge: string, gatewayIP: string, hostIP: string, maps: seq<PortMap>): seq<Rule> {
    if maps == [] then []
    else MapRules(bridge, gatewayIP, hostIP, maps[0]) + RulesFor(bridge, gatewayIP, hostIP, maps[1..])
  }

  function RemoveFirst(rules: seq<Rule>, r: Rule): seq<Rule> {
    if rules == [] then []
    else if rules[0] == r then rules[1..]
    else [rules[0]] + RemoveFirst(rules[1..], r)
  }

  /** Deletes one rule after another. */
  function RemoveEach(rules: seq<Rule>, gone: seq<Rule>): seq<Rule>
    decreases |gone|
  {
    if gone == [] then rules else RemoveEach(RemoveFirst(rules, gone[0]), gone[1..])
  }

  /** Deleting takes one rule away if there is one, whatever the order. */
  lemma {:induction false} RemoveFirstCount(rules: seq<Rule>, r: Rule)
    ensures multiset(RemoveFirst(rules, r)) == multiset(rules) - multiset{r}
  {
    if rules != [] {
      assert rules == [rules[0]] + rules[1..];
      if rules[0] != r {
        RemoveFirstCount(rules[1..], r);
      }
    }
  }

  lemma {:induction false} RemoveEachCount(rules: seq<Rule>, gone: seq<Rule>)
    ensures multiset(RemoveEach(rules, gone)) == multiset(rules) - multiset(gone)
    decreases |gone|
  {
    if gone != [] {
      assert gone == [gone[0]] + gone[1..];
      RemoveFirstCount(rules, gone[0]);
      RemoveEachCount(RemoveFirst(rules, gone[0]), gone[1..]);
    }
  }

  lemma {:induction false} FourRulesPerMapping(bridge: string, gatewayIP: string, hostIP: string, maps: seq<PortMap>)
    ensures |RulesFor(bridge, gatewayIP, hostIP, maps)| == 4 * |maps|
    ensures forall r :: r in RulesFor(bridge, gatewayIP, hostIP, maps) ==> !r.MasqueradeOut?
  {
    if maps != [] {
      FourRulesPerMapping(bridge, gatewayIP, hostIP, maps[1..]);
    }
  }
}
