/**
 Fault-free runs.  In every reachable state, for any interleaving over any number of
 networks and endpoints, the four records of a joined endpoint agree on one port number,
 and none of them knows an endpoint that is not live.
 */
module Agreement {
  import opened Types
  import opened Ports
  import opened Rules
  import opened World
  import opened Handlers
  import Labels

  ghost predicate SameNetwork(a: Network, b: Network) {
    a.name == b.name && a.bridge == b.bridge && a.vlan == b.vlan && a.mode == b.mode && a.cidr == b.cidr && a.defaultAcl == b.defaultAcl
  }

  ghost predicate NetworksOk(sys: Sys) {
    var d, s := sys.docker, sys.state;
    && (forall n :: n in s.networks <==> n in d.nets && d.nets[n].created)
    && s.mirrors.Keys == s.networks.Keys
    && (forall n :: n in s.networks ==> SameNetwork(s.networks[n], d.nets[n].network))
    && (forall n :: n in d.nets ==> d.nets[n].network.bridge in s.bridges)
    && NetsApart(d.nets)
    && (forall n :: n in d.nets && !d.nets[n].created ==> d.nets[n].network.containers == map[])
  }

  ghost predicate NetsApart(nets: map<Id, Requested>) {
    forall n, m :: n in nets && m in nets && n != m ==>
      nets[n].network.name != nets[m].network.name && nets[n].network.bridge != nets[m].network.bridge
  }

  /** The same, network by network. */
  ghost predicate NetworkOk(sys: Sys, n: Id) {
    var d, s := sys.docker, sys.state;
    && (n in s.networks <==> n in d.nets && d.nets[n].created)
    && (n in s.mirrors <==> n in s.networks)
    && (n in s.networks ==> SameNetwork(s.networks[n], d.nets[n].network))
    && (n in d.nets ==> d.nets[n].network.bridge in s.bridges)
    && (n in d.nets && !d.nets[n].created ==> d.nets[n].network.containers == map[])
  }

  lemma NetworkByNetwork(sys: Sys)
    ensures NetworksOk(sys) <==> NetsApart(sys.docker.nets) && forall n :: NetworkOk(sys, n)
  {
    hide NetsApart, SameNetwork;
    if NetsApart(sys.docker.nets) && forall n :: NetworkOk(sys, n) {
      var d, s := sys.docker, sys.state;
      forall n ensures n in s.networks <==> n in d.nets && d.nets[n].created { assert NetworkOk(sys, n); }
      forall n ensures n in s.mirrors <==> n in s.networks { assert NetworkOk(sys, n); }
      forall n | n in s.networks ensures SameNetwork(s.networks[n], d.nets[n].network) { assert NetworkOk(sys, n); }
      forall n | n in d.nets ensures d.nets[n].network.bridge in s.bridges { assert NetworkOk(sys, n); }
      forall n | n in d.nets && !d.nets[n].created ensures d.nets[n].network.containers == map[] { assert NetworkOk(sys, n); }
    }
  }

  /** A live endpoint is plugged in under its veth name at the number it was given. */
  ghost predicate Plugged(sys: Sys, e: Id)
    requires e in sys.docker.eps
  {
    var s, ep := sys.state, sys.docker.eps[e];
    && ep.network in s.networks
    && e in s.ofPorts
    && Veth(e) in s.ovs
    && s.ovs[Veth(e)] == At(s.networks[ep.network].bridge, s.ofPorts[e].port)
    && s.ofPorts[e].joined.Some? == ep.joined
  }

  /** A joined endpoint has the same number in Containers and in the controller, on the
      network's VLAN. */
  ghost predicate Configured(sys: Sys, e: Id)
    requires e in sys.docker.eps && Plugged(sys, e) && sys.docker.eps[e].joined
  {
    var s := sys.state;
    var net, r := s.networks[sys.docker.eps[e].network], s.ofPorts[e];
    var j := r.joined.value;
    && e in net.containers && net.containers[e].port == r.port
    && r.port in Table(s, net.name)
    && Table(s, net.name)[r.port] == Container(j.description, net.vlan, Labels.PortAcl(j.portAcl, net.defaultAcl, net.name))
  }

  ghost predicate EndpointOk(sys: Sys, e: Id)
    requires e in sys.docker.eps
  {
    Plugged(sys, e) && (sys.docker.eps[e].joined ==> Configured(sys, e))
  }

  ghost predicate EndpointsOk(sys: Sys) {
    && (forall e :: e in sys.docker.eps ==> EndpointOk(sys, e))
    && (forall e :: e in sys.state.ofPorts <==> e in sys.docker.eps)
    && (forall e, e' :: e in sys.docker.eps && e' in sys.docker.eps && e != e' ==> e[..5] != e'[..5])
  }

  /** The converse: containers, container ports and container interfaces have live owners. */
  ghost predicate OwnersOk(sys: Sys) {
    var d, s := sys.docker, sys.state;
    && (forall n, e :: n in s.networks && e in s.networks[n].containers ==> e in d.eps && d.eps[e] == Endpoint(n, true))
    && (forall name :: name in s.ovs && IsContainerPort(name) ==> exists e :: e in d.eps && Veth(e) == name)
    && (forall dp, p :: p in Table(s, dp) && Table(s, dp)[p].Container? ==> exists e :: Owns(sys, e, dp, p))
  }

  ghost predicate Owns(sys: Sys, e: Id, dp: string, p: nat) {
    var d, s := sys.docker, sys.state;
    && e in d.eps && d.eps[e].joined && d.eps[e].network in s.networks && e in s.ofPorts
    && s.networks[d.eps[e].network].name == dp && s.ofPorts[e].port == p
  }

  ghost predicate Agree(sys: Sys) {
    OvsOk(sys.state) && NetworksOk(sys) && EndpointsOk(sys) && OwnersOk(sys)
  }

  // -------------------------------------------------------------------------------------
  // Each operation keeps the agreement, and its handler runs to completion

  lemma InitialAgrees(sys: Sys)
    requires Initial(sys)
    ensures Agree(sys)
  {
  }

  lemma ScanIsFree(s: State, bridge: string)
    requires OvsOk(s)
    ensures Scan(UsedPorts(s.ovs, bridge)) !in UsedPorts(s.ovs, bridge)
    ensures Scan(UsedPorts(s.ovs, bridge)) >= 1
  {
    assert 0 !in UsedPorts(s.ovs, bridge);
  }

  /** What has to stay put for a live endpoint's records to keep agreeing. */
  ghost predicate SameRecords(sys: Sys, sys': Sys, e: Id)
    requires e in sys.docker.eps && Plugged(sys, e)
  {
    var s, s', n := sys.state, sys'.state, sys.docker.eps[e].network;
    var net, p := s.networks[n], s.ofPorts[e].port;
    && e in sys'.docker.eps && sys'.docker.eps[e] == sys.docker.eps[e]
    && n in s'.networks && SameNetwork(s'.networks[n], net)
    && (e in net.containers ==> e in s'.networks[n].containers && s'.networks[n].containers[e].port == net.containers[e].port)
    && e in s'.ofPorts && s'.ofPorts[e] == s.ofPorts[e]
    && Veth(e) in s'.ovs && s'.ovs[Veth(e)] == s.ovs[Veth(e)]
    && (p in Table(s, net.name) && sys.docker.eps[e].joined ==> p in Table(s', net.name) && Table(s', net.name)[p] == Table(s, net.name)[p])
  }

  // Frames: what an operation may change without disturbing a part of the agreement.

  lemma EndpointFrame(sys: Sys, sys': Sys, e: Id)
    requires e in sys.docker.eps && EndpointOk(sys, e) && SameRecords(sys, sys', e)
    ensures EndpointOk(sys', e)
  {
  }

  lemma EndpointsFrame(sys: Sys, sys': Sys)
    requires EndpointsOk(sys) && sys'.docker.eps == sys.docker.eps && sys'.state.ofPorts == sys.state.ofPorts
    requires forall e :: e in sys.docker.eps ==> SameRecords(sys, sys', e)
    ensures EndpointsOk(sys')
  {
    forall e | e in sys'.docker.eps ensures EndpointOk(sys', e) {
      EndpointFrame(sys, sys', e);
    }
  }

  ghost predicate SameNames(s: State, s': State) {
    && s'.networks.Keys == s.networks.Keys
    && (forall n :: n in s.networks ==> SameNetwork(s'.networks[n], s.networks[n]))
  }

  /** Nothing new that would need an owner: no container, container port or container interface. */
  ghost predicate NothingNew(s: State, s': State) {
    && (forall n, e :: n in s'.networks && e in s'.networks[n].containers ==> n in s.networks && e in s.networks[n].containers)
    && (forall name :: name in s'.ovs && IsContainerPort(name) ==> name in s.ovs)
    && (forall dp, p :: p in Table(s', dp) && Table(s', dp)[p].Container? ==> p in Table(s, dp) && Table(s, dp)[p].Container?)
  }

  lemma OwnersFrame(sys: Sys, sys': Sys)
    requires OwnersOk(sys) && NothingNew(sys.state, sys'.state)
    requires sys'.docker.eps == sys.docker.eps && sys'.state.ofPorts == sys.state.ofPorts
    requires forall n :: n in sys.state.networks ==> n in sys'.state.networks && SameNetwork(sys'.state.networks[n], sys.state.networks[n])
    ensures OwnersOk(sys')
  {
    hide Veth, IsContainerPort;
    var s, s' := sys.state, sys'.state;
    forall dp, p | p in Table(s', dp) && Table(s', dp)[p].Container? ensures exists e :: Owns(sys', e, dp, p) {
      var e :| Owns(sys, e, dp, p);
      assert Owns(sys', e, dp, p);
    }
  }

  lemma NetworksFrame(sys: Sys, sys': Sys)
    requires NetworksOk(sys) && sys'.docker.nets == sys.docker.nets && SameNames(sys.state, sys'.state)
    requires sys.state.bridges <= sys'.state.bridges && sys'.state.mirrors == sys.state.mirrors
    ensures NetworksOk(sys')
  {
    NetworkByNetwork(sys);
    NetworkByNetwork(sys');
    hide NetworksOk, NetsApart;
    forall n ensures NetworkOk(sys', n) {
      assert NetworkOk(sys, n);
    }
  }

  // Reserve

  lemma ReserveResult(sys: Sys, id: Id, e: Id)
    requires OvsOk(sys.state) && NetworksOk(sys) && OwnersOk(sys) && Legal(sys, ReservePort(id, e))
    ensures id in sys.state.networks && Veth(e) !in sys.state.ovs
    ensures var s, b := sys.state, sys.state.networks[id].bridge;
            var p := Scan(UsedPorts(s.ovs, b));
            Exec(s, ReserveScript(s, id, e), NoFault) ==
            Outcome(s.(ovs := s.ovs[Veth(e) := At(b, p)], ofPorts := s.ofPorts[e := Reservation(p, None)]), true)
  {
    var s := sys.state;
    var b := s.networks[id].bridge;
    var p := Scan(UsedPorts(s.ovs, b));
    ScanIsFree(s, b);
    VethNames(e, e);
    forall e' | e' in sys.docker.eps ensures Veth(e') != Veth(e) {
      VethNames(e, e');
    }
    var s1 := Perform(s, AddPort(b, p, Veth(e)));
    ExecCons(s, AddPort(b, p, Veth(e)), [RecordPort(e, p)], NoFault);
    ExecCons(s1, RecordPort(e, p), [], NoFault);
    assert [RecordPort(e, p)] + [] == [RecordPort(e, p)];
    assert [AddPort(b, p, Veth(e))] + [RecordPort(e, p)] == ReserveScript(s, id, e);
  }

  lemma ReserveAgrees(sys: Sys, id: Id, e: Id)
    requires Agree(sys) && Legal(sys, ReservePort(id, e))
    ensures Agree(Next(sys, ReservePort(id, e), NoFault))
  {
    var s := sys.state;
    ReserveResult(sys, id, e);
    var b := s.networks[id].bridge;
    var p := Scan(UsedPorts(s.ovs, b));
    var sys' := Next(sys, ReservePort(id, e), NoFault);
    ScanIsFree(s, b);
    NetworksFrame(sys, sys');
    ReserveOvs(s, b, p, Veth(e));
    ReserveEndpoints(sys, sys', id, e, p);
    ReserveOwners(sys, sys', id, e, At(b, p), Reservation(p, None));
  }

  lemma ReserveOvs(s: State, b: string, p: nat, name: string)
    requires OvsOk(s) && b in s.bridges && p >= 1 && p !in UsedPorts(s.ovs, b)
    ensures OvsOk(s.(ovs := s.ovs[name := At(b, p)]))
  {
    var ovs' := s.ovs[name := At(b, p)];
    forall a, c | a in ovs' && c in ovs' && ovs'[a] == ovs'[c] ensures a == c {
      assert a in s.ovs && s.ovs[a].bridge == b ==> s.ovs[a].port in UsedPorts(s.ovs, b);
      assert c in s.ovs && s.ovs[c].bridge == b ==> s.ovs[c].port in UsedPorts(s.ovs, b);
    }
  }

  lemma ReserveEndpoints(sys: Sys, sys': Sys, id: Id, e: Id, p: nat)
    requires EndpointsOk(sys) && FreshEndpoint(sys, e) && id in sys.state.networks
    requires Reserved(sys, sys', id, e, p)
    ensures EndpointsOk(sys')
  {
    forall e' | e' in sys'.docker.eps ensures EndpointOk(sys', e') {
      if e' != e {
        VethNames(e, e');
        ReserveKeeps(sys, sys', id, e, p, e');
      }
    }
  }

  ghost predicate Reserved(sys: Sys, sys': Sys, id: Id, e: Id, p: nat)
    requires id in sys.state.networks
  {
    && sys'.docker == sys.docker.(eps := sys.docker.eps[e := Endpoint(id, false)])
    && sys'.state == sys.state.(ovs := sys.state.ovs[Veth(e) := At(sys.state.networks[id].bridge, p)],
                                ofPorts := sys.state.ofPorts[e := Reservation(p, None)])
  }

  lemma ReserveKeeps(sys: Sys, sys': Sys, id: Id, e: Id, p: nat, e': Id)
    requires e' in sys.docker.eps && EndpointOk(sys, e') && e' != e && Veth(e') != Veth(e)
    requires id in sys.state.networks && Reserved(sys, sys', id, e, p)
    ensures e' in sys'.docker.eps && EndpointOk(sys', e')
  {
    hide Veth;
    assert SameRecords(sys, sys', e');
  }

  lemma ReserveOwners(sys: Sys, sys': Sys, id: Id, e: Id, a: Attachment, r: Reservation)
    requires OwnersOk(sys) && e !in sys.docker.eps && e !in sys.state.ofPorts
    requires sys'.docker == sys.docker.(eps := sys.docker.eps[e := Endpoint(id, false)])
    requires sys'.state == sys.state.(ovs := sys.state.ovs[Veth(e) := a], ofPorts := sys.state.ofPorts[e := r])
    ensures OwnersOk(sys')
  {
    hide Veth, IsContainerPort;
    var s, s' := sys.state, sys'.state;
    forall name | name in s'.ovs && IsContainerPort(name) ensures exists e' :: e' in sys'.docker.eps && Veth(e') == name {
      if name != Veth(e) {
        var e' :| e' in sys.docker.eps && Veth(e') == name;
        assert e' in sys'.docker.eps;
      } else {
        assert e in sys'.docker.eps;
      }
    }
    forall dp, q | q in Table(s', dp) && Table(s', dp)[q].Container? ensures exists e' :: Owns(sys', e', dp, q) {
      assert Table(s', dp) == Table(s, dp);
      var e' :| Owns(sys, e', dp, q);
      assert Owns(sys', e', dp, q);
    }
  }

  // Two live endpoints of one network never share a number.

  lemma PortsDiffer(sys: Sys, e: Id, e': Id)
    requires OvsOk(sys.state) && e in sys.docker.eps && e' in sys.docker.eps
    requires Plugged(sys, e) && Plugged(sys, e') && e[..5] != e'[..5]
    requires sys.docker.eps[e].network == sys.docker.eps[e'].network
    ensures sys.state.ofPorts[e].port != sys.state.ofPorts[e'].port
  {
    VethNames(e, e');
  }

  lemma NamesDiffer(sys: Sys, n: Id, m: Id)
    requires NetworksOk(sys) && n in sys.state.networks && m in sys.state.networks && n != m
    ensures sys.state.networks[n].name != sys.state.networks[m].name
    ensures sys.state.networks[n].bridge != sys.state.networks[m].bridge
  {
  }

  // Join

  function JoinedState(s: State, id: Id, e: Id, j: Joined): State
    requires id in s.networks && e in s.ofPorts
  {
    var net, p := s.networks[id], s.ofPorts[e].port;
    s.(rules := s.rules + JoinRules(net.bridge, j),
       faucet := s.faucet[net.name := Table(s, net.name)[p := Container(j.description, net.vlan, Labels.PortAcl(j.portAcl, net.defaultAcl, net.name))]],
       ofPorts := s.ofPorts[e := Reservation(p, Some(j))],
       networks := s.networks[id := net.(containers := net.containers[e := ContainerState(p, j.hostIP)])])
  }

  lemma JoinEffect(s: State, id: Id, e: Id, j: Joined, rules: seq<Rule>)
    requires id in s.networks && e in s.ofPorts
    ensures var net, p := s.networks[id], s.ofPorts[e].port;
            var s1 := s.(rules := rules);
            var s2 := Perform(s1, MergeIfaces(net.name, map[p := Container(j.description, net.vlan, Labels.PortAcl(j.portAcl, net.defaultAcl, net.name))]));
            Perform(s2, RecordJoin(id, e, Reservation(p, Some(j)))) == JoinedState(s, id, e, j).(rules := rules)
  {
    hide JoinRules;
    var net, p := s.networks[id], s.ofPorts[e].port;
    var iface := Container(j.description, net.vlan, Labels.PortAcl(j.portAcl, net.defaultAcl, net.name));
    assert Table(s, net.name) + map[p := iface] == Table(s, net.name)[p := iface];
  }

  lemma JoinResult(s: State, id: Id, e: Id, j: Joined)
    requires id in s.networks && e in s.ofPorts
    ensures Exec(s, JoinScript(s, id, e, j), NoFault) == Outcome(JoinedState(s, id, e, j), true)
  {
    hide Exec, AddRules, JoinRules, Perform, JoinedState;
    var net, p := s.networks[id], s.ofPorts[e].port;
    var rules := JoinRules(net.bridge, j);
    var ifaces := map[p := Container(j.description, net.vlan, Labels.PortAcl(j.portAcl, net.defaultAcl, net.name))];
    var merge, record := MergeIfaces(net.name, ifaces), RecordJoin(id, e, Reservation(p, Some(j)));
    var s1 := s.(rules := s.rules + rules);
    assert JoinScript(s, id, e, j) == AddRules(rules) + ([merge] + ([Call] + [record]));
    ExecAddRules(s, rules, [merge] + ([Call] + [record]));
    ExecCons(s1, merge, [Call] + [record], NoFault);
    assert [record] == [record] + [];
    var s2 := Perform(s1, merge);
    ExecCall(s2, [record], NoFault);
    ExecCons(s2, record, [], NoFault);
    ExecNil(Perform(s2, record), NoFault);
    JoinEffect(s, id, e, j, s1.rules);
    JoinedRules(s, id, e, j);
  }

  lemma JoinedRules(s: State, id: Id, e: Id, j: Joined)
    requires id in s.networks && e in s.ofPorts
    ensures JoinedState(s, id, e, j).(rules := s.rules + JoinRules(s.networks[id].bridge, j)) == JoinedState(s, id, e, j)
  {
    hide JoinRules;
  }

  ghost predicate JoinsTo(sys: Sys, sys': Sys, id: Id, e: Id, j: Joined) {
    && id in sys.state.networks && e in sys.state.ofPorts
    && sys'.docker == sys.docker.(eps := sys.docker.eps[e := Endpoint(id, true)])
    && sys'.state == JoinedState(sys.state, id, e, j)
  }

  lemma JoinKeeps(sys: Sys, sys': Sys, id: Id, e: Id, j: Joined, e': Id)
    requires OvsOk(sys.state) && NetworksOk(sys)
    requires e in sys.docker.eps && sys.docker.eps[e] == Endpoint(id, false) && EndpointOk(sys, e)
    requires e' in sys.docker.eps && EndpointOk(sys, e') && e' != e && e'[..5] != e[..5]
    requires JoinsTo(sys, sys', id, e, j)
    ensures e' in sys'.docker.eps && EndpointOk(sys', e')
  {
    if sys.docker.eps[e'].network == id {
      PortsDiffer(sys, e, e');
    } else {
      NamesDiffer(sys, id, sys.docker.eps[e'].network);
    }
    JoinKeepsApart(sys, sys', id, e, j, e');
  }

  lemma JoinKeepsApart(sys: Sys, sys': Sys, id: Id, e: Id, j: Joined, e': Id)
    requires e' in sys.docker.eps && EndpointOk(sys, e') && e' != e
    requires JoinsTo(sys, sys', id, e, j)
    requires Apart(sys.state, sys.docker.eps[e'].network, sys.state.ofPorts[e'].port, id, sys.state.ofPorts[e].port)
    ensures e' in sys'.docker.eps && EndpointOk(sys', e')
  {
    hide Veth, JoinRules;
    assert SameRecords(sys, sys', e');
    EndpointFrame(sys, sys', e');
  }

  /** Two entries of the controller's tables: different datapaths or different numbers. */
  ghost predicate Apart(s: State, n: Id, p: nat, m: Id, q: nat) {
    n in s.networks && m in s.networks && (s.networks[n].name != s.networks[m].name || p != q)
  }

  lemma JoinAgrees(sys: Sys, id: Id, e: Id, j: Joined)
    requires Agree(sys) && Legal(sys, JoinContainer(id, e, j))
    ensures Exec(sys.state, JoinScript(sys.state, id, e, j), NoFault).completed
    ensures Agree(Next(sys, JoinContainer(id, e, j), NoFault))
  {
    hide Exec, JoinScript, Veth, IsContainerPort, JoinedState;
    var sys' := Next(sys, JoinContainer(id, e, j), NoFault);
    assert EndpointOk(sys, e);
    JoinResult(sys.state, id, e, j);
    assert JoinsTo(sys, sys', id, e, j);
    hide Next;
    JoinRest(sys, sys', id, e, j);
    JoinEndpoints(sys, sys', id, e, j);
    JoinOwners(sys, sys', id, e, j);
    hide JoinsTo, NetworksOk, EndpointsOk, OwnersOk, OvsOk;
  }

  lemma JoinRest(sys: Sys, sys': Sys, id: Id, e: Id, j: Joined)
    requires OvsOk(sys.state) && NetworksOk(sys) && JoinsTo(sys, sys', id, e, j)
    ensures OvsOk(sys'.state) && NetworksOk(sys')
  {
    hide JoinRules, Table, NetworksOk;
    NetworksFrame(sys, sys');
  }

  lemma JoinEndpoints(sys: Sys, sys': Sys, id: Id, e: Id, j: Joined)
    requires OvsOk(sys.state) && NetworksOk(sys) && EndpointsOk(sys)
    requires e in sys.docker.eps && sys.docker.eps[e] == Endpoint(id, false)
    requires JoinsTo(sys, sys', id, e, j)
    ensures EndpointsOk(sys')
  {
    hide Veth, NetworksOk, OvsOk;
    assert EndpointOk(sys, e);
    forall e' | e' in sys'.docker.eps ensures EndpointOk(sys', e') {
      if e' != e {
        assert EndpointOk(sys, e');
        JoinKeeps(sys, sys', id, e, j, e');
      }
    }
  }

  lemma JoinOwners(sys: Sys, sys': Sys, id: Id, e: Id, j: Joined)
    requires OwnersOk(sys)
    requires e in sys.docker.eps && sys.docker.eps[e] == Endpoint(id, false)
    requires JoinsTo(sys, sys', id, e, j)
    ensures OwnersOk(sys')
  {
    hide Veth, IsContainerPort;
    var s, s' := sys.state, sys'.state;
    forall name | name in s'.ovs && IsContainerPort(name) ensures exists e' :: e' in sys'.docker.eps && Veth(e') == name {
      var e' :| e' in sys.docker.eps && Veth(e') == name;
      assert e' in sys'.docker.eps;
    }
    forall dp, q | q in Table(s', dp) && Table(s', dp)[q].Container? ensures exists e' :: Owns(sys', e', dp, q) {
      if dp == s.networks[id].name && q == s.ofPorts[e].port {
        assert Owns(sys', e, dp, q);
      } else {
        assert q in Table(s, dp) && Table(s, dp)[q].Container?;
        var e' :| Owns(sys, e', dp, q);
        assert Owns(sys', e', dp, q);
      }
    }
  }

  // Leave

  function LeftState(s: State, id: Id, e: Id, j: Joined): State
    requires id in s.networks && e in s.ofPorts && Veth(e) in s.ovs
  {
    var net, p := s.networks[id], s.ovs[Veth(e)].port;
    s.(ovs := s.ovs - {Veth(e)},
       faucet := s.faucet[net.name := Table(s, net.name) - {p}],
       rules := RemoveEach(s.rules, JoinRules(net.bridge, j)),
       ofPorts := s.ofPorts - {e},
       networks := s.networks[id := net.(containers := net.containers - {e})])
  }

  /** The script's steps, in order, amount to the state left behind. */
  lemma LeaveEffect(s: State, id: Id, e: Id, j: Joined)
    requires id in s.networks && e in s.ofPorts && Veth(e) in s.ovs
    ensures var net, p := s.networks[id], s.ovs[Veth(e)].port;
            var s1 := Perform(s, DelPort(net.bridge, Veth(e)));
            var s2 := Perform(s1, DelIface(net.name, p));
            var s3 := s2.(rules := RemoveEach(s2.rules, JoinRules(net.bridge, j)));
            s2.rules == s.rules && Perform(s3, ForgetEndpoint(id, e)) == LeftState(s, id, e, j)
  {
    hide Veth, JoinRules;
  }

  lemma LeaveResult(s: State, id: Id, e: Id)
    requires id in s.networks && e in s.ofPorts && s.ofPorts[e].joined.Some?
    requires Veth(e) in s.ovs && s.ovs[Veth(e)].bridge == s.networks[id].bridge
    requires multiset(JoinRules(s.networks[id].bridge, s.ofPorts[e].joined.value)) <= multiset(s.rules)
    ensures Exec(s, LeaveScript(s, id, e), NoFault) == Outcome(LeftState(s, id, e, s.ofPorts[e].joined.value), true)
  {
    hide Veth, Exec, DelRules, JoinRules, Perform, LeftState;
    var net, p, j := s.networks[id], s.ovs[Veth(e)].port, s.ofPorts[e].joined.value;
    var rules := JoinRules(net.bridge, j);
    var unplug, del, forget := DelPort(net.bridge, Veth(e)), DelIface(net.name, p), ForgetEndpoint(id, e);
    var tail := DelRules(rules) + [forget];
    assert LeaveScript(s, id, e) == [unplug] + ([del] + tail);
    LeaveEffect(s, id, e, j);
    ExecCons(s, unplug, [del] + tail, NoFault);
    var s1 := Perform(s, unplug);
    ExecCons(s1, del, tail, NoFault);
    var s2 := Perform(s1, del);
    ExecDelRules(s2, rules, [forget]);
    var s3 := s2.(rules := RemoveEach(s2.rules, rules));
    assert [forget] == [forget] + [];
    ExecCons(s3, forget, [], NoFault);
    ExecNil(Perform(s3, forget), NoFault);
  }

  ghost predicate LeavesTo(sys: Sys, sys': Sys, id: Id, e: Id, j: Joined) {
    && id in sys.state.networks && e in sys.state.ofPorts && Veth(e) in sys.state.ovs
    && sys'.docker == sys.docker.(eps := sys.docker.eps - {e})
    && sys'.state == LeftState(sys.state, id, e, j)
  }

  lemma LeaveKeeps(sys: Sys, sys': Sys, id: Id, e: Id, j: Joined, e': Id)
    requires OvsOk(sys.state) && NetworksOk(sys)
    requires e in sys.docker.eps && sys.docker.eps[e] == Endpoint(id, true) && EndpointOk(sys, e)
    requires e' in sys.docker.eps && EndpointOk(sys, e') && e' != e && e'[..5] != e[..5]
    requires LeavesTo(sys, sys', id, e, j)
    ensures e' in sys'.docker.eps && EndpointOk(sys', e')
  {
    VethNames(e, e');
    if sys.docker.eps[e'].network == id {
      PortsDiffer(sys, e, e');
    } else {
      NamesDiffer(sys, id, sys.docker.eps[e'].network);
    }
    LeaveKeepsApart(sys, sys', id, e, j, e');
  }

  lemma LeaveKeepsApart(sys: Sys, sys': Sys, id: Id, e: Id, j: Joined, e': Id)
    requires e' in sys.docker.eps && EndpointOk(sys, e') && e' != e && Veth(e') != Veth(e)
    requires LeavesTo(sys, sys', id, e, j)
    requires Apart(sys.state, sys.docker.eps[e'].network, sys.state.ofPorts[e'].port, id, sys.state.ovs[Veth(e)].port)
    ensures e' in sys'.docker.eps && EndpointOk(sys', e')
  {
    hide Veth, JoinRules;
    assert SameRecords(sys, sys', e');
    EndpointFrame(sys, sys', e');
  }

  /** After Leave the endpoint is gone from all four records. */
  ghost predicate GoneEverywhere(s: State, s': State, id: Id, e: Id)
    requires id in s.networks && e in s.ofPorts
  {
    && e !in s'.ofPorts
    && Veth(e) !in s'.ovs
    && (forall n :: n in s'.networks ==> e !in s'.networks[n].containers)
    && s.ofPorts[e].port !in Table(s', s.networks[id].name)
  }

  lemma LeaveAgrees(sys: Sys, id: Id, e: Id)
    requires Agree(sys) && Legal(sys, LeaveContainer(id, e))
    requires EndpointOk(sys, e) && HasJoinRules(sys.state, id, e)
    ensures Exec(sys.state, LeaveScript(sys.state, id, e), NoFault).completed
    ensures Agree(Next(sys, LeaveContainer(id, e), NoFault))
    ensures GoneEverywhere(sys.state, Next(sys, LeaveContainer(id, e), NoFault).state, id, e)
  {
    hide Veth, IsContainerPort, Exec, LeaveScript, NetworksOk, EndpointsOk, OwnersOk, OvsOk, Next, JoinRules;
    var s := sys.state;
    var j := s.ofPorts[e].joined.value;
    var sys' := Next(sys, LeaveContainer(id, e), NoFault);
    LeaveStep(sys, id, e);
    LeaveEndpoints(sys, sys', id, e, j);
    LeaveOwners(sys, sys', id, e, j);
    LeaveGone(sys, sys', id, e, j);
  }

  /** The rules this endpoint's join added are still there. */
  ghost predicate HasJoinRules(s: State, id: Id, e: Id) {
    && id in s.networks && e in s.ofPorts && s.ofPorts[e].joined.Some?
    && multiset(JoinRules(s.networks[id].bridge, s.ofPorts[e].joined.value)) <= multiset(s.rules)
  }

  lemma LeaveStep(sys: Sys, id: Id, e: Id)
    requires OvsOk(sys.state) && NetworksOk(sys)
    requires e in sys.docker.eps && sys.docker.eps[e] == Endpoint(id, true) && EndpointOk(sys, e)
    requires HasJoinRules(sys.state, id, e)
    ensures Exec(sys.state, LeaveScript(sys.state, id, e), NoFault).completed
    ensures var sys' := Next(sys, LeaveContainer(id, e), NoFault);
            && LeavesTo(sys, sys', id, e, sys.state.ofPorts[e].joined.value)
            && OvsOk(sys'.state) && NetworksOk(sys')
  {
    hide Veth, IsContainerPort, Exec, LeaveScript, JoinRules;
    var sys' := Next(sys, LeaveContainer(id, e), NoFault);
    LeaveResult(sys.state, id, e);
    assert LeavesTo(sys, sys', id, e, sys.state.ofPorts[e].joined.value);
    hide LeftState, LeavesTo, OvsOk, NetworksOk, Next;
    LeaveRest(sys, sys', id, e, sys.state.ofPorts[e].joined.value);
  }

  lemma LeaveRest(sys: Sys, sys': Sys, id: Id, e: Id, j: Joined)
    requires OvsOk(sys.state) && NetworksOk(sys) && LeavesTo(sys, sys', id, e, j)
    ensures OvsOk(sys'.state) && NetworksOk(sys')
  {
    hide Veth, JoinRules, NetworksOk, Table;
    NetworksFrame(sys, sys');
  }

  lemma LeaveGone(sys: Sys, sys': Sys, id: Id, e: Id, j: Joined)
    requires OwnersOk(sys) && e in sys.docker.eps && sys.docker.eps[e] == Endpoint(id, true) && EndpointOk(sys, e)
    requires LeavesTo(sys, sys', id, e, j)
    ensures GoneEverywhere(sys.state, sys'.state, id, e)
  {
    hide Veth, IsContainerPort;
  }

  lemma LeaveEndpoints(sys: Sys, sys': Sys, id: Id, e: Id, j: Joined)
    requires OvsOk(sys.state) && NetworksOk(sys) && EndpointsOk(sys)
    requires e in sys.docker.eps && sys.docker.eps[e] == Endpoint(id, true)
    requires LeavesTo(sys, sys', id, e, j)
    ensures EndpointsOk(sys')
  {
    hide Veth, NetworksOk, OvsOk;
    assert EndpointOk(sys, e);
    forall e' | e' in sys'.docker.eps ensures EndpointOk(sys', e') {
      assert EndpointOk(sys, e');
      LeaveKeeps(sys, sys', id, e, j, e');
    }
  }

  lemma LeaveOwners(sys: Sys, sys': Sys, id: Id, e: Id, j: Joined)
    requires OwnersOk(sys)
    requires e in sys.docker.eps && sys.docker.eps[e] == Endpoint(id, true) && EndpointOk(sys, e)
    requires LeavesTo(sys, sys', id, e, j)
    ensures OwnersOk(sys')
  {
    hide Veth, IsContainerPort;
    var s, s' := sys.state, sys'.state;
    forall name | name in s'.ovs && IsContainerPort(name) ensures exists e' :: e' in sys'.docker.eps && Veth(e') == name {
      var e' :| e' in sys.docker.eps && Veth(e') == name;
      assert e' in sys'.docker.eps;
    }
    forall dp, q | q in Table(s', dp) && Table(s', dp)[q].Container? ensures exists e' :: Owns(sys', e', dp, q) {
      assert q in Table(s, dp) && Table(s, dp)[q].Container?;
      var e' :| Owns(sys, e', dp, q);
      assert Owns(sys', e', dp, q);
    }
  }
}
