/**
 The resource manager itself: one object that owns the driver's maps and reaches bridges,
 controller and iptables through commands that can fail.  Each handler is proved to do
 exactly what its script says, wherever a fault strikes.
 */
module ResourceManagers {
  import opened Types
  import opened Ports
  import opened Rules
  import opened World
  import opened Handlers
  import Labels
  import C = Creation
  import L = Leases
  import R = Reconciler

  class ResourceManager {
    var networks: map<Id, Network>
    var mirrors: map<Id, nat>
    var ofPorts: map<Id, Reservation>
    var cache: map<Id, map<nat, string>>

    // The world behind the commands.
    var bridges: set<string>
    var ovs: map<string, Attachment>
    var faucet: map<string, map<nat, Iface>>
    var rules: seq<Rule>
    const links: LinkMode

    // When the next fault strikes, and how many replies have been sent.
    var luck: Luck
    var replies: nat

    ghost function World(): State
      reads this
    {
      State(networks, mirrors, ofPorts, cache, bridges, ovs, faucet, rules, links)
    }

    constructor (links: LinkMode, bridges: set<string>, ovs: map<string, Attachment>, faucet: map<string, map<nat, Iface>>, rules: seq<Rule>)
      ensures World() == State(map[], map[], map[], map[], bridges, ovs, faucet, rules, links)
      ensures luck == NoFault && replies == 0
    {
      this.links := links;
      networks, mirrors, ofPorts, cache := map[], map[], map[], map[];
      this.bridges, this.ovs, this.faucet, this.rules := bridges, ovs, faucet, rules;
      luck, replies := NoFault, 0;
    }

    // -----------------------------------------------------------------------------------
    // Commands: each either takes effect or reports failure and changes nothing

    /** A command that would work goes through unless the fault strikes now. */
    method Attempt(works: bool) returns (ok: bool)
      modifies this`luck
      ensures ok <==> works && old(luck) != FaultAfter(0)
      ensures luck == if ok then Spend(old(luck)) else old(luck)
    {
      if !works || luck == FaultAfter(0) {
        return false;
      }
      if luck.FaultAfter? {
        luck := FaultAfter(luck.k - 1);
      }
      return true;
    }

    method MustAddPort(bridge: string, port: nat, name: string) returns (ok: bool)
      modifies this`luck, this`ovs
      ensures ok <==> Enabled(old(World()), AddPort(bridge, port, name)) && old(luck) != FaultAfter(0)
      ensures World() == if ok then Perform(old(World()), AddPort(bridge, port, name)) else old(World())
      ensures luck == if ok then Spend(old(luck)) else old(luck)
    {
      ok := Attempt(bridge in bridges && name !in ovs && port !in UsedPorts(ovs, bridge));
      if ok {
        ovs := ovs[name := At(bridge, port)];
      }
    }

    method MustDelPort(bridge: string, name: string) returns (ok: bool)
      modifies this`luck, this`ovs
      ensures ok <==> Enabled(old(World()), DelPort(bridge, name)) && old(luck) != FaultAfter(0)
      ensures World() == if ok then Perform(old(World()), DelPort(bridge, name)) else old(World())
      ensures luck == if ok then Spend(old(luck)) else old(luck)
    {
      ok := Attempt(name in ovs && ovs[name].bridge == bridge);
      if ok {
        ovs := ovs - {name};
      }
    }

    method MustMergeIfaces(dp: string, ifaces: map<nat, Iface>) returns (ok: bool)
      modifies this`luck, this`faucet
      ensures ok <==> old(luck) != FaultAfter(0)
      ensures World() == if ok then Perform(old(World()), MergeIfaces(dp, ifaces)) else old(World())
      ensures luck == if ok then Spend(old(luck)) else old(luck)
    {
      ok := Attempt(true);
      if ok {
        faucet := faucet[dp := (if dp in faucet then faucet[dp] else map[]) + ifaces];
      }
    }

    method MustDelIface(dp: string, port: nat) returns (ok: bool)
      modifies this`luck, this`faucet
      ensures ok <==> old(luck) != FaultAfter(0)
      ensures World() == if ok then Perform(old(World()), DelIface(dp, port)) else old(World())
      ensures luck == if ok then Spend(old(luck)) else old(luck)
    {
      ok := Attempt(true);
      if ok {
        faucet := faucet[dp := (if dp in faucet then faucet[dp] else map[]) - {port}];
      }
    }

    method MustDelDp(dp: string) returns (ok: bool)
      modifies this`luck, this`faucet
      ensures ok <==> old(luck) != FaultAfter(0)
      ensures World() == if ok then Perform(old(World()), DelDp(dp)) else old(World())
      ensures luck == if ok then Spend(old(luck)) else old(luck)
    {
      ok := Attempt(true);
      if ok {
        faucet := faucet - {dp};
      }
    }

    method MustDelBridge(bridge: string) returns (ok: bool)
      modifies this`luck, this`bridges, this`ovs
      ensures ok <==> bridge in old(bridges) && old(luck) != FaultAfter(0)
      ensures World() == if ok then Perform(old(World()), DelBridge(bridge)) else old(World())
      ensures luck == if ok then Spend(old(luck)) else old(luck)
    {
      ok := Attempt(bridge in bridges);
      if ok {
        bridges := bridges - {bridge};
        ovs := WithoutBridge(ovs, bridge);
      }
    }

    method MustAppendRule(rule: Rule) returns (ok: bool)
      modifies this`luck, this`rules
      ensures ok <==> old(luck) != FaultAfter(0)
      ensures World() == if ok then Perform(old(World()), AddRule(rule)) else old(World())
      ensures luck == if ok then Spend(old(luck)) else old(luck)
    {
      hide Table, WithoutBridge, UsedPorts;
      ok := Attempt(true);
      if ok {
        rules := rules + [rule];
      }
    }

    method MustDeleteRule(rule: Rule) returns (ok: bool)
      modifies this`luck, this`rules
      ensures ok <==> rule in old(rules) && old(luck) != FaultAfter(0)
      ensures World() == if ok then Perform(old(World()), DelRule(rule)) else old(World())
      ensures luck == if ok then Spend(old(luck)) else old(luck)
    {
      hide Table, WithoutBridge, UsedPorts;
      ok := Attempt(rule in rules);
      if ok {
        rules := RemoveFirst(rules, rule);
      }
    }

    /** A fresh scrape of a bridge: exactly its ports. */
    method ScrapePortDesc(bridge: string) returns (portDesc: R.PortDesc)
      requires OvsOk(World())
      ensures IsScrape(World(), bridge, portDesc)
      ensures portDesc.Keys == UsedPorts(ovs, bridge)
      ensures R.Injective(portDesc)
    {
      portDesc := map[];
      var rest := ovs.Keys;
      while rest != {}
        invariant rest <= ovs.Keys
        invariant forall p :: p in portDesc ==> portDesc[p] in ovs && portDesc[p] !in rest && ovs[portDesc[p]] == At(bridge, p)
        invariant forall name :: name in ovs && name !in rest && ovs[name].bridge == bridge ==>
                    ovs[name].port in portDesc && portDesc[ovs[name].port] == name
        decreases rest
      {
        var name :| name in rest;
        rest := rest - {name};
        if ovs[name].bridge == bridge {
          portDesc := portDesc[ovs[name].port := name];
        }
      }
    }

    // -----------------------------------------------------------------------------------
    // Endpoint handlers

    method HandleReservePort(id: Id, e: Id)
      requires OvsOk(World())
      modifies this
      ensures World() == Exec(old(World()), ReserveScript(old(World()), id, e), old(luck)).state
      ensures replies == old(replies)
    {
      ghost var w := World();
      if id !in networks {
        assert [Panic] == [Panic] + [];
        ExecCons(w, Panic, [], luck);
        return;
      }
      var bridge := networks[id].bridge;
      var portDesc := ScrapePortDesc(bridge);
      var port := LowestFreePortOnBridge(portDesc);
      assert ReserveScript(w, id, e) == [AddPort(bridge, port, Veth(e))] + [RecordPort(e, port)];
      ExecCons(w, AddPort(bridge, port, Veth(e)), [RecordPort(e, port)], luck);
      var ok := MustAddPort(bridge, port, Veth(e));
      if !ok {
        return;
      }
      ghost var w1 := World();
      ofPorts := ofPorts[e := Reservation(port, None)];
      assert [RecordPort(e, port)] == [RecordPort(e, port)] + [];
      ExecCons(w1, RecordPort(e, port), [], luck);
    }

    /** One rule command, as the next step of a script. */
    method EditRule(rule: Rule, append: bool, ghost rest: seq<Step>) returns (ok: bool)
      modifies this`luck, this`rules
      ensures Exec(old(World()), [if append then AddRule(rule) else DelRule(rule)] + rest, old(luck)) ==
              if ok then Exec(World(), rest, luck) else Outcome(World(), false)
      ensures World() == old(World()).(rules := rules)
    {
      hide Exec;
      ExecCons(World(), if append then AddRule(rule) else DelRule(rule), rest, luck);
      if append {
        ok := MustAppendRule(rule);
      } else {
        ok := MustDeleteRule(rule);
      }
    }

    /** Rules are appended or deleted in order until one fails. */
    method EditRules(edits: seq<Rule>, append: bool, ghost rest: seq<Step>) returns (ok: bool)
      modifies this`luck, this`rules
      ensures Exec(old(World()), (if append then AddRules(edits) else DelRules(edits)) + rest, old(luck)) ==
              if ok then Exec(World(), rest, luck) else Outcome(World(), false)
      ensures World() == old(World()).(rules := rules)
    {
      hide Exec, AddRules, DelRules;
      ghost var steps := (if append then AddRules(edits) else DelRules(edits)) + rest;
      ghost var target := Exec(World(), steps, luck);
      var i := 0;
      assert steps[0..] == steps;
      while i < |edits|
        invariant 0 <= i <= |edits|
        invariant target == Exec(World(), steps[i..], luck)
        invariant World() == old(World()).(rules := rules)
      {
        assert steps[i..] == [if append then AddRule(edits[i]) else DelRule(edits[i])] + steps[i + 1..];
        ok := EditRule(edits[i], append, steps[i + 1..]);
        if !ok {
          return false;
        }
        i := i + 1;
      }
      assert steps[i..] == rest;
      return true;
    }

    method HandleJoinContainer(id: Id, e: Id, j: Joined)
      modifies this
      ensures World() == Exec(old(World()), JoinScript(old(World()), id, e, j), old(luck)).state
      ensures replies == old(replies)
    {
      hide AddRules, Exec, JoinRules, Perform;
      ghost var w := World();
      if id !in networks {
        assert [Panic] == [Panic] + [];
        ExecCons(w, Panic, [], luck);
        return;
      }
      var port := if e in ofPorts then ofPorts[e].port else 0;
      var net := networks[id];
      ghost var tail := [MergeIfaces(net.name, map[port := Container(j.description, net.vlan, Labels.PortAcl(j.portAcl, net.defaultAcl, net.name))])]
                        + ([Call] + [RecordJoin(id, e, Reservation(port, Some(j)))]);
      assert JoinScript(w, id, e, j) == AddRules(JoinRules(net.bridge, j)) + tail;
      hide JoinScript;
      var ok := EditRules(JoinRules(net.bridge, j), true, tail);
      if !ok {
        return;
      }
      JoinRest(id, e, net, port, j);
    }

    method JoinRest(id: Id, e: Id, net: Network, port: nat, j: Joined)
      requires id in networks && networks[id] == net
      modifies this
      ensures World() == Exec(old(World()), [MergeIfaces(net.name, map[port := Container(j.description, net.vlan, Labels.PortAcl(j.portAcl, net.defaultAcl, net.name))])]
                                            + ([Call] + [RecordJoin(id, e, Reservation(port, Some(j)))]), old(luck)).state
      ensures replies == old(replies)
    {
      hide Exec;
      hide Labels.PortAcl;
      var acl := Labels.ChooseAcl(j.portAcl, net.defaultAcl, net.name);
      var ifaces := map[port := Container(j.description, net.vlan, acl)];
      ExecCons(World(), MergeIfaces(net.name, ifaces), [Call] + [RecordJoin(id, e, Reservation(port, Some(j)))], luck);
      var ok := MustMergeIfaces(net.name, ifaces);
      if ok {
        NoteJoin(id, e, net, port, j);
      }
    }

    /** Mirroring and the DHCP client can still fail; after that the join is recorded. */
    method NoteJoin(id: Id, e: Id, net: Network, port: nat, j: Joined)
      requires id in networks && networks[id] == net
      modifies this
      ensures World() == Exec(old(World()), [Call] + [RecordJoin(id, e, Reservation(port, Some(j)))], old(luck)).state
      ensures replies == old(replies)
    {
      hide Exec;
      ghost var w, record := World(), RecordJoin(id, e, Reservation(port, Some(j)));
      ExecCall(w, [record], luck);
      var ok := Attempt(true);
      if !ok {
        return;
      }
      ofPorts := ofPorts[e := Reservation(port, Some(j))];
      networks := networks[id := net.(containers := net.containers[e := ContainerState(port, j.hostIP)])];
      assert [record] == [record] + [];
      ExecCons(w, record, [], luck);
      assert World() == Perform(w, record);
      ExecNil(World(), luck);
    }

    /** The body of a leave, up to wherever it panics. */
    method LeaveBody(id: Id, e: Id) returns (finished: bool)
      modifies this
      ensures Outcome(World(), finished) == Exec(old(World()), LeaveScript(old(World()), id, e), old(luck))
      ensures replies == old(replies)
    {
      hide DelRules, Exec, JoinRules, Veth, Perform;
      ghost var w := World();
      assert [Panic] == [Panic] + [];
      if e !in ofPorts || Veth(e) !in ovs || id !in networks {
        ExecCons(w, Panic, [], luck);
        return false;
      }
      var r, port, net := ofPorts[e], ovs[Veth(e)].port, networks[id];
      ghost var tail := LeaveTail(w, id, e, net.bridge);
      ghost var unplug, del := DelPort(net.bridge, Veth(e)), DelIface(net.name, port);
      assert LeaveScript(w, id, e) == [unplug] + ([del] + tail);
      ExecCons(w, unplug, [del] + tail, luck);
      var ok := MustDelPort(net.bridge, Veth(e));
      if !ok {
        return false;
      }
      ExecCons(World(), del, tail, luck);
      ok := MustDelIface(net.name, port);
      if !ok {
        return false;
      }
      if r.joined.None? {
        ExecCons(World(), Panic, [], luck);
        return false;
      }
      finished := LeaveRest(id, e, net, r.joined.value);
    }

    method LeaveRest(id: Id, e: Id, net: Network, j: Joined) returns (finished: bool)
      requires id in networks && networks[id] == net
      modifies this
      ensures Outcome(World(), finished) == Exec(old(World()), DelRules(JoinRules(net.bridge, j)) + [ForgetEndpoint(id, e)], old(luck))
      ensures replies == old(replies)
    {
      hide DelRules, Exec, JoinRules;
      ghost var forget := ForgetEndpoint(id, e);
      var ok := EditRules(JoinRules(net.bridge, j), false, [forget]);
      if !ok {
        return false;
      }
      ghost var w := World();
      ofPorts := ofPorts - {e};
      networks := networks[id := net.(containers := net.containers - {e})];
      assert [forget] == [forget] + [];
      ExecCons(w, forget, [], luck);
      ExecNil(World(), luck);
      return true;
    }

    /** Whatever happens in the body, the caller gets exactly one reply. */
    method HandleLeaveContainer(id: Id, e: Id)
      modifies this
      ensures World() == Exec(old(World()), LeaveScript(old(World()), id, e), old(luck)).state
      ensures replies == old(replies) + 1
    {
      var _ := LeaveBody(id, e);
      replies := replies + 1;
    }

    // -----------------------------------------------------------------------------------
    // Network handlers

    /** A delete replies only when it gets to its end: after a panic its caller waits for ever. */
    method HandleDeleteNetwork(id: Id)
      modifies this
      ensures World() == Exec(old(World()), DeleteScript(old(World()), id), old(luck)).state
      ensures replies == old(replies) + if Exec(old(World()), DeleteScript(old(World()), id), old(luck)).completed then 1 else 0
    {
      hide Exec, Perform;
      ghost var w := World();
      if id !in networks {
        assert [Panic] == [Panic] + [];
        ExecCons(w, Panic, [], luck);
        return;
      }
      var net := networks[id];
      ghost var tail := [DelBridge(net.bridge)] + [ForgetNetwork(id)];
      var natRules := if net.mode == Nat then [MasqueradeOut(net.cidr)] else [];
      assert DeleteScript(w, id) == [DelDp(net.name)] + (DelRules(natRules) + tail);
      hide DeleteScript, DelRules;
      ExecCons(w, DelDp(net.name), DelRules(natRules) + tail, luck);
      var ok := MustDelDp(net.name);
      if !ok {
        return;
      }
      ok := EditRules(natRules, false, tail);
      if !ok {
        return;
      }
      ok := DeleteRest(id, net.bridge);
      if !ok {
        return;
      }
      replies := replies + 1;
    }

    method DeleteRest(id: Id, bridge: string) returns (finished: bool)
      modifies this
      ensures Outcome(World(), finished) == Exec(old(World()), [DelBridge(bridge)] + [ForgetNetwork(id)], old(luck))
      ensures replies == old(replies)
    {
      hide Exec;
      ExecCons(World(), DelBridge(bridge), [ForgetNetwork(id)], luck);
      var ok := MustDelBridge(bridge);
      if !ok {
        return false;
      }
      ghost var w := World();
      networks := networks - {id};
      mirrors := mirrors - {id};
      assert [ForgetNetwork(id)] == [ForgetNetwork(id)] + [];
      ExecCons(w, ForgetNetwork(id), [], luck);
      ExecNil(World(), luck);
      return true;
    }

    /** Looks up one port and notes it in the network's ExternalPorts. */
    method NoteExternal(id: Id, name: string, port: nat, ghost rest: seq<Step>) returns (ok: bool)
      requires id in networks
      modifies this`luck, this`networks
      ensures Exec(old(World()), [RecordExternal(id, name, port)] + rest, old(luck)) ==
              if ok then Exec(World(), rest, luck) else Outcome(World(), false)
      ensures World() == old(World()).(networks := networks) && id in networks
      ensures networks[id] == old(networks[id]).(externals := networks[id].externals)
    {
      hide Exec;
      ExecCons(World(), RecordExternal(id, name, port), rest, luck);
      ok := Attempt(true);
      if ok {
        var net := networks[id];
        networks := networks[id := net.(externals := net.externals[name := port])];
      }
    }

    /** Looks up the ports named at creation, in the order the map is visited, and notes each
        in the network's ExternalPorts. */
    method NoteExternals(id: Id, names: seq<string>, ghost rest: seq<Step>) returns (ok: bool)
      requires id in networks
      modifies this`luck, this`networks
      ensures Exec(old(World()), ExternalSteps(ovs, id, names) + rest, old(luck)) ==
              if ok then Exec(World(), rest, luck) else Outcome(World(), false)
      ensures World() == old(World()).(networks := networks) && id in networks
      ensures networks[id] == old(networks[id]).(externals := networks[id].externals)
      ensures ok ==> forall i :: 0 <= i < |names| ==> names[i] in ovs
    {
      hide Exec;
      ghost var w := World();
      ghost var target := Exec(w, ExternalSteps(ovs, id, names) + rest, luck);
      var i := 0;
      assert names[0..] == names;
      while i < |names|
        invariant 0 <= i <= |names| && id in networks
        invariant World() == w.(networks := networks)
        invariant networks[id] == old(networks[id]).(externals := networks[id].externals)
        invariant target == Exec(World(), ExternalSteps(ovs, id, names[i..]) + rest, luck)
        invariant forall k :: 0 <= k < i ==> names[k] in ovs
      {
        var name := names[i];
        assert names[i..][0] == name && names[i..][1..] == names[i + 1..];
        if name !in ovs {
          assert ExternalSteps(ovs, id, names[i..]) + rest == [Panic] + rest;
          ExecCons(World(), Panic, rest, luck);
          return false;
        }
        ghost var later := ExternalSteps(ovs, id, names[i + 1..]) + rest;
        assert ExternalSteps(ovs, id, names[i..]) + rest == [RecordExternal(id, name, ovs[name].port)] + later;
        ok := NoteExternal(id, name, ovs[name].port, later);
        if !ok {
          return false;
        }
        i := i + 1;
      }
      assert ExternalSteps(ovs, id, names[i..]) + rest == rest;
      return true;
    }

    /** The interfaces of a new network, gathered port by port. */
    method GatherIfaces(net: Network, lbPort: nat, physical: seq<string>, copro: seq<string>) returns (ifaces: map<nat, Iface>)
      requires OvsOk(World())
      ensures ifaces == CreateIfaces(ovs, links, net, lbPort, physical, copro)
      ensures forall x :: x in physical && x !in copro && C.OwnNumber(ovs, physical, x) && C.OwnNumber(ovs, copro, x)
                          && !C.Overridden(ovs, links, net, lbPort, ovs[x].port) ==>
                var own := x in net.physical && net.physical[x].Some?;
                ovs[x].port in ifaces && ifaces[ovs[x].port] == Physical(x, if own then net.physical[x].value else net.vlan)
    {
      ifaces := GatherPorts(net, lbPort, physical, copro);
      hide CreateIfaces, C.OwnNumber, C.Overridden, OvsOk;
      forall x | x in physical && x !in copro && C.OwnNumber(ovs, physical, x) && C.OwnNumber(ovs, copro, x) {
        C.PhysicalConfiguredIff(ovs, links, net, lbPort, physical, copro, x);
      }
    }

    method GatherPorts(net: Network, lbPort: nat, physical: seq<string>, copro: seq<string>) returns (ifaces: map<nat, Iface>)
      requires OvsOk(World())
      ensures ifaces == CreateIfaces(ovs, links, net, lbPort, physical, copro)
    {
      var ports: map<nat, Iface> := map[];
      for i := 0 to |physical|
        invariant ports == PhysicalIfaces(ovs, net, physical[..i])
      {
        assert physical[..i + 1][..i] == physical[..i];
        var name := physical[i];
        if name in ovs {
          var vlan := net.vlan;
          if name in net.physical && net.physical[name].Some? {
            vlan := net.physical[name].value;
          }
          ports := ports[ovs[name].port := Physical(name, vlan)];
        }
      }
      assert physical[..|physical|] == physical;
      var copros: map<nat, Iface> := map[];
      for i := 0 to |copro|
        invariant copros == CoproIfaces(ovs, copro[..i])
      {
        assert copro[..i + 1][..i] == copro[..i];
        if copro[i] in ovs {
          copros := copros[ovs[copro[i]].port := Coprocessor(copro[i])];
        }
      }
      assert copro[..|copro|] == copro;
      var pre := GatherPreallocated(net);
      ifaces := ports + copros + pre;
      if net.mode == Nat || net.mode == Routed {
        var acl := Labels.GetStrForNetwork(net.natAcl, net.name);
        ifaces := ifaces[OF_PORT_LOCAL := Gateway(net.vlan, acl)];
      }
      hide PhysicalIfaces, CoproIfaces, PreallocatedIfaces;
      var link := GatherLink(net, lbPort);
      ifaces := ifaces + link;
    }

    method GatherLink(net: Network, lbPort: nat) returns (link: map<nat, Iface>)
      ensures link == LinkIface(ovs, links, net, lbPort)
    {
      link := map[];
      match links {
        case NoLinks =>
        case MirrorLinks =>
          link := map[lbPort := MirrorOut];
        case StackLinks(dp) =>
          if net.near in ovs && net.far in ovs {
            link := map[ovs[net.near].port := StackLink(dp, ovs[net.far].port)];
          }
      }
    }

    method GatherPreallocated(net: Network) returns (ifaces: map<nat, Iface>)
      requires OvsOk(World())
      ensures ifaces == PreallocatedIfaces(ovs, net)
    {
      var portDesc := ScrapePortDesc(net.bridge);
      var first := LowestFreePortOnBridge(portDesc);
      var acl := Labels.GetStrForNetwork(net.defaultAcl, net.name);
      ifaces := map[];
      var next := first;
      for i := 0 to net.preallocate
        invariant next == first + i
        invariant forall p :: p in ifaces <==> first <= p < next
        invariant forall p :: p in ifaces ==> ifaces[p] == Preallocated(net.vlan, acl)
      {
        ifaces := ifaces[next := Preallocated(net.vlan, acl)];
        next := next + 1;
      }
    }

    method HandleCreateNetwork(id: Id, net: Network, lbPort: nat, physical: seq<string>, copro: seq<string>)
      requires OvsOk(World())
      modifies this
      ensures World() == Exec(old(World()), CreateScript(old(World()), id, net, lbPort, physical, copro), old(luck)).state
      ensures replies == old(replies)
    {
      hide Exec, ExternalSteps, CreateIfaces, OvsOk, Perform, Enabled, LookupSteps, LinkEnds;
      ghost var w := World();
      ghost var merge := MergeIfaces(net.name, CreateIfaces(ovs, links, net, lbPort, physical, copro));
      ghost var gateway := (if HasGateway(net) then [RecordExternal(id, net.bridge, OF_PORT_LOCAL)] else [])
                           + (LookupSteps(ovs, LinkEnds(links, net)) + [merge]);
      ghost var second := ExternalSteps(ovs, id, copro) + gateway;
      ghost var first := ExternalSteps(ovs, id, physical) + second;
      assert CreateScript(w, id, net, lbPort, physical, copro) == [RecordNetwork(id, net, lbPort)] + first;
      hide CreateScript;
      var ok := RecordNew(id, net, lbPort, first);
      if !ok {
        return;
      }
      SameOvs(w, World());
      ok := NoteExternals(id, physical, second);
      if !ok {
        return;
      }
      ok := NoteExternals(id, copro, gateway);
      if !ok {
        return;
      }
      SameOvs(w, World());
      FinishCreate(id, net, lbPort, physical, copro);
    }

    /** The network can fail to be inspected; otherwise it is recorded first of all. */
    method RecordNew(id: Id, net: Network, lbPort: nat, ghost rest: seq<Step>) returns (ok: bool)
      modifies this`luck, this`networks, this`mirrors
      ensures Exec(old(World()), [RecordNetwork(id, net, lbPort)] + rest, old(luck)) ==
              if ok then Exec(World(), rest, luck) else Outcome(World(), false)
      ensures ok ==> id in networks
    {
      hide Exec, Table, WithoutBridge, UsedPorts;
      ExecCons(World(), RecordNetwork(id, net, lbPort), rest, luck);
      ok := Attempt(true);
      if ok {
        mirrors := mirrors[id := lbPort];
        networks := networks[id := net];
      }
    }

    /** The gateway's entry, the numbers of the link's ends, and the one merge that configures
        everything gathered. */
    method FinishCreate(id: Id, net: Network, lbPort: nat, physical: seq<string>, copro: seq<string>)
      requires OvsOk(World()) && id in networks
      modifies this
      ensures var gateway := if HasGateway(net) then [RecordExternal(id, net.bridge, OF_PORT_LOCAL)] else [];
              var merge := MergeIfaces(net.name, CreateIfaces(old(ovs), links, net, lbPort, physical, copro));
              var rest := LookupSteps(old(ovs), LinkEnds(links, net)) + [merge];
              World() == Exec(old(World()), gateway + rest, old(luck)).state
      ensures replies == old(replies)
    {
      hide Exec, CreateIfaces, LookupSteps, Perform;
      var ifaces := GatherIfaces(net, lbPort, physical, copro);
      ghost var merge := MergeIfaces(net.name, ifaces);
      ghost var rest := LookupSteps(ovs, LinkEnds(links, net)) + [merge];
      var ok;
      if net.mode == Nat || net.mode == Routed {
        ok := NoteExternal(id, net.bridge, OF_PORT_LOCAL, rest);
        if !ok {
          return;
        }
      } else {
        assert [] + rest == rest;
      }
      ok := LookUp(LinkEnds(links, net), [merge]);
      if !ok {
        return;
      }
      assert [merge] == [merge] + [];
      ExecCons(World(), merge, [], luck);
      ok := MustMergeIfaces(net.name, ifaces);
      ExecNil(World(), luck);
    }

    /** Looks up ports one after the other; a missing one is a panic. */
    method LookUp(names: seq<string>, ghost rest: seq<Step>) returns (ok: bool)
      modifies this`luck
      ensures Exec(World(), LookupSteps(ovs, names) + rest, old(luck)) ==
              if ok then Exec(World(), rest, luck) else Outcome(World(), false)
    {
      hide Exec, Perform;
      ghost var target := Exec(World(), LookupSteps(ovs, names) + rest, luck);
      var i := 0;
      assert names[0..] == names;
      while i < |names|
        invariant 0 <= i <= |names|
        invariant target == Exec(World(), LookupSteps(ovs, names[i..]) + rest, luck)
      {
        assert names[i..][0] == names[i] && names[i..][1..] == names[i + 1..];
        if names[i] !in ovs {
          assert LookupSteps(ovs, names[i..]) + rest == [Panic] + rest;
          ExecCons(World(), Panic, rest, luck);
          return false;
        }
        ghost var more := LookupSteps(ovs, names[i + 1..]) + rest;
        assert LookupSteps(ovs, names[i..]) + rest == [Call] + more;
        ExecCall(World(), more, luck);
        ok := Attempt(true);
        if !ok {
          return false;
        }
        i := i + 1;
      }
      assert LookupSteps(ovs, names[i..]) + rest == rest;
      return true;
    }

    // -----------------------------------------------------------------------------------
    // Reconciliation

    /** One network of a reconcile; a scrape that fails is retried at the next one. */
    method ReconcileNetwork(id: Id, fails: bool) returns (scrape: Option<R.PortDesc>)
      requires OvsOk(World()) && id in networks
      modifies this`cache, this`faucet, this`networks
      ensures scrape.None? == fails
      ensures Legal(Sys(Docker(map[], map[]), old(World())), Reconcile(id, scrape))
      ensures World() == ReconcileState(old(World()), id, scrape)
    {
      hide R.Pass, OvsOk, UsedPorts, WithView;
      var net := networks[id];
      if fails {
        scrape := None;
      } else {
        var portDesc := ScrapePortDesc(net.bridge);
        scrape := Some(portDesc);
      }
      var settings := R.Settings(if id in mirrors then mirrors[id] else 0, net.physical.Keys + net.copro, net.vlan,
                                 if net.mode == Nat || net.mode == Routed then Some(net.bridge) else None);
      var view := R.View(if id in cache then Some(cache[id]) else None, if net.name in faucet then faucet[net.name] else map[], net.externals);
      assert settings == SettingsOf(World(), id) && view == ViewOf(World(), id);
      var view' := R.ReconcileNetwork(settings, view, scrape);
      hide SettingsOf, ViewOf;
      StoreView(id, view');
    }

    method StoreView(id: Id, view: R.View)
      requires id in networks
      modifies this`cache, this`faucet, this`networks
      ensures World() == WithView(old(World()), id, view)
    {
      var net := networks[id];
      if view.cache.Some? {
        cache := cache[id := view.cache.value];
      }
      faucet := faucet[net.name := view.table];
      networks := networks[id := net.(externals := view.externals)];
    }

    /** All networks, in whatever order the map is visited: one pass for each, over a true scrape
        of its bridge unless its scrape fails, after which every network whose scrape worked has
        it cached. */
    method ReconcileOvs(failing: set<Id>) returns (passes: seq<Op>)
      requires OvsOk(World())
      modifies this`cache, this`faucet, this`networks
      ensures Covers(passes, old(networks.Keys))
      ensures forall i :: 0 <= i < |passes| ==> TruePass(old(World()), failing, passes[i])
      ensures World() == Passes(old(World()), passes)
      ensures forall n :: n in old(networks) && n !in failing ==> Fresh(World(), n)
    {
      hide SoFar, IsScrape, ReconcileState, OvsOk;
      passes := [];
      var rest := networks.Keys;
      ghost var w0, done: set<Id> := World(), {};
      StartsSoFar(w0, failing);
      while rest != {}
        invariant rest <= w0.networks.Keys && done == w0.networks.Keys - rest && SoFar(w0, World(), failing, passes, done)
        decreases rest
      {
        var id :| id in rest;
        rest := rest - {id};
        ghost var w := World();
        SoFarFacts(w0, w, failing, passes, done);
        var scrape := ReconcileNetwork(id, id in failing);
        NextPass(w0, w, failing, passes, done, id, scrape);
        passes, done := passes + [Reconcile(id, scrape)], done + {id};
      }
      assert done == w0.networks.Keys;
      AllDone(w0, World(), failing, passes);
    }

    /** Once the marker file has changed, and only then, every container of a network that uses DHCP
        gets the address of its lease, if it has one; nothing else changes.  That is what a number of
        address updates do, which can arrive in every state. */
    method ReconcileDhcp(changed: bool, leases: map<Id, string>) returns (ghost updates: seq<Event>)
      modifies this`networks
      ensures World() == old(World()).(networks := networks) && networks.Keys == old(networks.Keys)
      ensures forall n :: n in networks ==>
                && networks[n] == old(networks)[n].(containers := networks[n].containers)
                && networks[n].containers.Keys == old(networks)[n].containers.Keys
      ensures forall n, e :: n in networks && e in networks[n].containers ==>
                var c := old(networks)[n].containers[e];
                networks[n].containers[e] == if changed && networks[n].useDhcp && e in leases then ContainerState(c.port, leases[e]) else c
      ensures L.Updates(updates)
      ensures forall d :: LegalRun(Sys(d, old(World())), updates) && Run(Sys(d, old(World())), updates) == Sys(d, World())
    {
      updates := [];
      ghost var w := World();
      L.LeadsNowhere(w);
      if changed {
        updates := LeaseNetworks(leases);
      }
      hide LegalRun, Run;
      forall d {
        L.UpdatesLegal(Sys(d, w), updates);
      }
    }

    method LeaseNetworks(leases: map<Id, string>) returns (ghost updates: seq<Event>)
      modifies this`networks
      ensures World() == old(World()).(networks := networks) && networks.Keys == old(networks.Keys)
      ensures forall n :: n in networks ==>
                L.LeasedAll(old(networks)[n], networks[n], leases)
      ensures L.LeadsTo(old(World()), updates, World())
    {
      hide L.LeadsTo, L.LeasedAll;
      updates := [];
      L.LeadsNowhere(World());
      var rest := networks.Keys;
      while rest != {}
        invariant rest <= networks.Keys && networks.Keys == old(networks.Keys) && World() == old(World()).(networks := networks)
        invariant forall n :: n in networks && n in rest ==> networks[n] == old(networks)[n]
        invariant forall n :: n in networks && n !in rest ==>
                    L.LeasedAll(old(networks)[n], networks[n], leases)
        invariant L.LeadsTo(old(World()), updates, World())
        decreases rest
      {
        var id :| id in rest;
        rest := rest - {id};
        if !networks[id].useDhcp {
          L.LeasesNone(networks[id], leases);
          continue;
        }
        ghost var w := World();
        ghost var more := LeaseContainers(id, leases);
        L.LeasesEvery(old(networks)[id], networks[id], leases);
        hide L.Leased;
        L.LeadsAcross(old(World()), updates, w, more, World());
        updates := updates + more;
      }
    }

    /** One network's containers. */
    method LeaseContainers(id: Id, leases: map<Id, string>) returns (ghost updates: seq<Event>)
      requires id in networks
      modifies this`networks
      ensures World() == old(World()).(networks := networks) && networks.Keys == old(networks.Keys)
      ensures forall n :: n in networks && n != id ==> networks[n] == old(networks)[n]
      ensures L.Leased(old(networks)[id], networks[id], leases, networks[id].containers.Keys)
      ensures L.LeadsTo(old(World()), updates, World())
    {
      hide L.LeadsTo;
      updates := [];
      L.LeadsNowhere(World());
      var rest := networks[id].containers.Keys;
      ghost var net, visited: set<Id> := networks[id], {};
      while rest != {}
        invariant networks.Keys == old(networks.Keys) && World() == old(World()).(networks := networks)
        invariant forall n :: n in networks && n != id ==> networks[n] == old(networks)[n]
        invariant rest <= net.containers.Keys && visited == net.containers.Keys - rest
        invariant L.Leased(net, networks[id], leases, visited)
        invariant L.LeadsTo(old(World()), updates, World())
        decreases rest
      {
        var e :| e in rest;
        rest, visited := rest - {e}, visited + {e};
        if e !in leases {
          L.SkipOne(net, networks[id], leases, visited - {e}, e);
          assert visited - {e} + {e} == visited;
          continue;
        }
        ghost var w, net1 := World(), networks[id];
        SetHostIP(id, e, leases[e]);
        L.VisitOne(net, net1, networks[id], leases, visited - {e}, e);
        assert visited - {e} + {e} == visited;
        L.OneUpdate(w, id, e, leases[e]);
        L.LeadsAcross(old(World()), updates, w, [Event(DhcpUpdate(id, e, leases[e]), NoFault)], World());
        updates := updates + [Event(DhcpUpdate(id, e, leases[e]), NoFault)];
      }
      assert visited == networks[id].containers.Keys;
    }

    method SetHostIP(id: Id, e: Id, hostIP: string)
      requires id in networks && e in networks[id].containers
      modifies this`networks
      ensures World() == DhcpState(old(World()), id, e, hostIP)
      ensures World() == old(World()).(networks := networks) && networks.Keys == old(networks.Keys)
      ensures forall n :: n in networks && n != id ==> networks[n] == old(networks)[n]
      ensures var net := old(networks)[id];
              networks[id] == net.(containers := net.containers[e := ContainerState(net.containers[e].port, hostIP)])
    {
      var net := networks[id];
      var container := net.containers[e].(hostIP := hostIP);
      networks := networks[id := net.(containers := net.containers[e := container])];
    }
  }

  /** A pass over a true scrape of the network's bridge, or over none if its scrape fails. */
  ghost predicate TruePass(s: State, failing: set<Id>, op: Op) {
    && op.Reconcile? && op.id in s.networks && (op.scrape.None? <==> op.id in failing)
    && (op.scrape.Some? ==> IsScrape(s, s.networks[op.id].bridge, op.scrape.value))
  }

  lemma IsTruePass(s: State, s': State, failing: set<Id>, id: Id, scrape: Option<R.PortDesc>)
    requires id in s.networks && id in s'.networks && s'.networks[id].bridge == s.networks[id].bridge && s'.ovs == s.ovs
    requires (scrape.None? <==> id in failing) && (scrape.Some? ==> IsScrape(s', s'.networks[id].bridge, scrape.value))
    ensures TruePass(s, failing, Reconcile(id, scrape))
  {
    ScrapeFrame(s, s');
  }

  /** What the loop over the networks keeps, once it has passed over these. */
  ghost predicate SoFar(w0: State, w: State, failing: set<Id>, passes: seq<Op>, done: set<Id>) {
    && w.networks.Keys == w0.networks.Keys && w.ovs == w0.ovs && w.bridges == w0.bridges
    && (forall n :: n in w.networks ==> w.networks[n].bridge == w0.networks[n].bridge)
    && (forall i :: 0 <= i < |passes| ==> TruePass(w0, failing, passes[i]))
    && Covers(passes, done) && w == Passes(w0, passes)
    && (forall n :: n in done && n !in failing ==> Fresh(w, n))
  }

  lemma StartsSoFar(w: State, failing: set<Id>)
    ensures SoFar(w, w, failing, [], {})
  {
    hide Fresh, TruePass;
    PassesNone(w);
    CoversNone();
  }

  lemma SoFarFacts(w0: State, w: State, failing: set<Id>, passes: seq<Op>, done: set<Id>)
    requires SoFar(w0, w, failing, passes, done) && OvsOk(w0)
    ensures OvsOk(w) && w.networks.Keys == w0.networks.Keys
  {
    hide Fresh, TruePass, Covers, Passes;
    SameOvs(w0, w);
  }

  lemma AllDone(w0: State, w: State, failing: set<Id>, passes: seq<Op>)
    requires SoFar(w0, w, failing, passes, w0.networks.Keys)
    ensures Covers(passes, w0.networks.Keys) && (forall i :: 0 <= i < |passes| ==> TruePass(w0, failing, passes[i]))
    ensures w == Passes(w0, passes) && forall n :: n in w0.networks && n !in failing ==> Fresh(w, n)
  {
    hide Fresh, TruePass, Covers, Passes;
  }

  lemma NextPass(w0: State, w: State, failing: set<Id>, passes: seq<Op>, done: set<Id>, id: Id, scrape: Option<R.PortDesc>)
    requires SoFar(w0, w, failing, passes, done) && id !in done && id in w0.networks && id in w.networks
    requires (scrape.None? <==> id in failing) && (scrape.Some? ==> IsScrape(w, w.networks[id].bridge, scrape.value))
    ensures SoFar(w0, ReconcileState(w, id, scrape), failing, passes + [Reconcile(id, scrape)], done + {id})
  {
    hide IsScrape, ReconcileState, R.Pass, Fresh, Passes, Covers, TruePass;
    PassesSnoc(w0, passes, Reconcile(id, scrape));
    PassEffect(w, id, scrape);
    PassFreshens(w, id, scrape);
    IsTruePass(w0, w, failing, id, scrape);
    CoversSnoc(passes, done, Reconcile(id, scrape));
  }

  /** One pass for each of these networks. */
  ghost predicate Covers(passes: seq<Op>, done: set<Id>) {
    && (forall i :: 0 <= i < |passes| ==> passes[i].Reconcile? && passes[i].id in done)
    && (forall n :: n in done ==> exists i :: 0 <= i < |passes| && passes[i].Reconcile? && passes[i].id == n)
    && (forall i, k :: 0 <= i < k < |passes| && passes[i].Reconcile? && passes[k].Reconcile? ==> passes[i].id != passes[k].id)
  }

  lemma CoversNone()
    ensures Covers([], {})
  {
  }

  lemma CoversSnoc(passes: seq<Op>, done: set<Id>, op: Op)
    requires Covers(passes, done) && op.Reconcile? && op.id !in done
    ensures Covers(passes + [op], done + {op.id})
  {
    var passes' := passes + [op];
    forall n | n in done + {op.id} ensures exists i :: 0 <= i < |passes'| && passes'[i].Reconcile? && passes'[i].id == n {
      if n == op.id {
        assert passes'[|passes|] == op;
      } else {
        var i :| 0 <= i < |passes| && passes[i].Reconcile? && passes[i].id == n;
        assert passes'[i] == passes[i];
      }
    }
  }

  ghost function Passes(s: State, passes: seq<Op>): State {
    if passes == [] then s
    else
      var s' := Passes(s, passes[..|passes| - 1]);
      var last := passes[|passes| - 1];
      if last.Reconcile? then ReconcileState(s', last.id, last.scrape) else s'
  }

  lemma PassesNone(s: State)
    ensures Passes(s, []) == s
  {
  }

  lemma PassesSnoc(s: State, passes: seq<Op>, op: Op)
    requires op.Reconcile?
    ensures Passes(s, passes + [op]) == ReconcileState(Passes(s, passes), op.id, op.scrape)
  {
    assert (passes + [op])[..|passes|] == passes;
  }

  /** What a pass leaves in the manager's maps. */
  lemma PassEffect(s: State, id: Id, scrape: Option<R.PortDesc>)
    requires id in s.networks
    ensures var s' := ReconcileState(s, id, scrape);
            && s'.networks.Keys == s.networks.Keys && s'.ovs == s.ovs && s'.bridges == s.bridges
            && (forall n :: n in s.networks ==> s'.networks[n].bridge == s.networks[n].bridge)
            && (forall n :: n != id ==> (n in s'.cache <==> n in s.cache) && (n in s.cache ==> s'.cache[n] == s.cache[n]))
            && (scrape.Some? ==> id in s'.cache && s'.cache[id] == scrape.value)
  {
    R.PassCache(SettingsOf(s, id), ViewOf(s, id), scrape);
    hide R.Pass;
  }

  lemma SameOvs(s: State, s': State)
    requires OvsOk(s) && s'.ovs == s.ovs && s'.bridges == s.bridges
    ensures OvsOk(s')
  {
  }

  /** The cache of a network holds a true scrape of its bridge. */
  ghost predicate Fresh(s: State, n: Id) {
    n in s.cache && n in s.networks && IsScrape(s, s.networks[n].bridge, s.cache[n])
  }

  lemma PassFreshens(s: State, id: Id, scrape: Option<R.PortDesc>)
    requires id in s.networks && (scrape.Some? ==> IsScrape(s, s.networks[id].bridge, scrape.value))
    ensures var s' := ReconcileState(s, id, scrape);
            && (scrape.Some? ==> Fresh(s', id))
            && forall n :: n != id && Fresh(s, n) ==> Fresh(s', n)
  {
    hide ReconcileState, IsScrape;
    PassEffect(s, id, scrape);
    ScrapeFrame(s, ReconcileState(s, id, scrape));
  }

  lemma ScrapeFrame(s: State, s': State)
    requires s'.ovs == s.ovs
    ensures forall b, m :: IsScrape(s', b, m) <==> IsScrape(s, b, m)
  {
  }
}
