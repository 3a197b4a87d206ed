/** DHCP addresses: what a reconciliation of the leases amounts to in a run of the system. */
module Leases {
  import opened Types
  import opened World
  import opened Handlers

  /** One update: the container gets the address, and nothing else changes anywhere. */
  lemma UpdateEffect(s: State, id: Id, e: Id, hostIP: string)
    ensures var s' := DhcpState(s, id, e, hostIP);
            && s' == s.(networks := s'.networks) && s'.networks.Keys == s.networks.Keys
            && (forall n :: n in s.networks && n != id ==> s'.networks[n] == s.networks[n])
            && (id in s.networks ==>
                  var net, net' := s.networks[id], s'.networks[id];
                  && net' == net.(containers := net'.containers) && net'.containers.Keys == net.containers.Keys
                  && (forall x :: x in net.containers && x != e ==> net'.containers[x] == net.containers[x])
                  && (e in net.containers ==> net'.containers[e] == ContainerState(net.containers[e].port, hostIP)))
  {
  }

  ghost predicate Updates(events: seq<Event>) {
    forall i :: 0 <= i < |events| ==> events[i].op.DhcpUpdate? && events[i].luck.NoFault?
  }

  /** Whatever Docker has asked for, these updates lead from one state to the other. */
  ghost predicate LeadsTo(s: State, events: seq<Event>, s': State) {
    Updates(events) && forall d :: Run(Sys(d, s), events) == Sys(d, s')
  }

  /** Updates can arrive in every state. */
  lemma {:induction false} UpdatesLegal(sys: Sys, events: seq<Event>)
    requires Updates(events)
    ensures LegalRun(sys, events) && FaultFree(events)
    decreases |events|
  {
    if events != [] {
      UpdatesLegal(Next(sys, events[0].op, events[0].luck), events[1..]);
    }
  }

  lemma {:induction false} RunConcat(sys: Sys, a: seq<Event>, b: seq<Event>)
    ensures Run(sys, a + b) == Run(Run(sys, a), b)
    decreases |a|
  {
    hide Next;
    if a == [] {
      assert a + b == b;
    } else {
      assert (a + b)[1..] == a[1..] + b;
      RunConcat(Next(sys, a[0].op, a[0].luck), a[1..], b);
    }
  }

  lemma LeadsNowhere(s: State)
    ensures LeadsTo(s, [], s)
  {
  }

  lemma LeadsAcross(s: State, a: seq<Event>, s1: State, b: seq<Event>, s2: State)
    requires LeadsTo(s, a, s1) && LeadsTo(s1, b, s2)
    ensures LeadsTo(s, a + b, s2)
  {
    forall d ensures Run(Sys(d, s), a + b) == Sys(d, s2) {
      RunConcat(Sys(d, s), a, b);
    }
  }

  lemma OneUpdate(s: State, id: Id, e: Id, hostIP: string)
    ensures LeadsTo(s, [Event(DhcpUpdate(id, e, hostIP), NoFault)], DhcpState(s, id, e, hostIP))
  {
    var event := Event(DhcpUpdate(id, e, hostIP), NoFault);
    forall d ensures Run(Sys(d, s), [event]) == Sys(d, DhcpState(s, id, e, hostIP)) {
      assert Run(Sys(d, s), [event]) == Run(Next(Sys(d, s), event.op, event.luck), [event][1..]);
      hide DhcpState;
    }
  }

  /** What the leases call for in one network, once these of its containers have been visited. */
  ghost predicate Leased(net: Network, net': Network, leases: map<Id, string>, visited: set<Id>) {
    && net' == net.(containers := net'.containers) && net'.containers.Keys == net.containers.Keys
    && forall e :: e in net.containers ==>
         net'.containers[e] ==
         if e in visited && e in leases then ContainerState(net.containers[e].port, leases[e]) else net.containers[e]
  }

  lemma VisitOne(net: Network, net1: Network, net2: Network, leases: map<Id, string>, visited: set<Id>, e: Id)
    requires Leased(net, net1, leases, visited) && e in net.containers && e in leases
    requires net2 == net1.(containers := net1.containers[e := ContainerState(net1.containers[e].port, leases[e])])
    ensures Leased(net, net2, leases, visited + {e})
  {
  }

  lemma SkipOne(net: Network, net1: Network, leases: map<Id, string>, visited: set<Id>, e: Id)
    requires Leased(net, net1, leases, visited) && e !in leases
    ensures Leased(net, net1, leases, visited + {e})
  {
  }

  /** All containers of a network that uses DHCP, and none of one that does not. */
  ghost predicate LeasedAll(net: Network, net': Network, leases: map<Id, string>) {
    Leased(net, net', leases, if net.useDhcp then net.containers.Keys else {})
  }

  lemma LeasesNone(net: Network, leases: map<Id, string>)
    requires !net.useDhcp
    ensures LeasedAll(net, net, leases)
  {
  }

  lemma LeasesEvery(net: Network, net': Network, leases: map<Id, string>)
    requires net.useDhcp && Leased(net, net', leases, net'.containers.Keys)
    ensures LeasedAll(net, net', leases)
  {
  }
}
