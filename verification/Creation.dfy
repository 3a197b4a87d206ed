/** What creating a network leaves in the controller's table and in ExternalPorts. */
module Creation {
  import opened Types
  import opened Ports
  import opened Rules
  import opened World
  import opened Handlers
  import Labels

  /** Name x is plugged in at a number that no other of these names has. */
  ghost predicate OwnNumber(ovs: map<string, Attachment>, names: seq<string>, x: string) {
    x in ovs && forall y :: y in names && y in ovs && y != x ==> ovs[y].port != ovs[x].port
  }

  lemma {:induction false} PhysicalAt(ovs: map<string, Attachment>, net: Network, names: seq<string>, x: string)
    requires OwnNumber(ovs, names, x)
    ensures var t := PhysicalIfaces(ovs, net, names);
            if x in names then
              && ovs[x].port in t
              && (x in net.physical && net.physical[x].Some? ==> t[ovs[x].port] == Physical(x, net.physical[x].value))
              && (x !in net.physical || net.physical[x].None? ==> t[ovs[x].port] == Physical(x, net.vlan))
            else ovs[x].port !in t
  {
    if names != [] {
      var n := |names| - 1;
      assert names == names[..n] + [names[n]];
      PhysicalAt(ovs, net, names[..n], x);
    }
  }

  lemma {:induction false} CoproAt(ovs: map<string, Attachment>, names: seq<string>, x: string)
    requires OwnNumber(ovs, names, x)
    ensures var t := CoproIfaces(ovs, names);
            if x in names then ovs[x].port in t && t[ovs[x].port] == Coprocessor(x) else ovs[x].port !in t
  {
    if names != [] {
      var n := |names| - 1;
      assert names == names[..n] + [names[n]];
      CoproAt(ovs, names[..n], x);
    }
  }

  /** Entries that override a port's own: the preallocated window, the gateway and the link. */
  ghost predicate Overridden(ovs: map<string, Attachment>, links: LinkMode, net: Network, lbPort: nat, p: nat) {
    || p in Window(Scan(UsedPorts(ovs, net.bridge)), net.preallocate)
    || (net.mode != Flat && p == OF_PORT_LOCAL)
    || LinkTakes(ovs, links, net, lbPort, p)
  }

  /** The number of the link's entry: the mirror loopback port, or where the stack link's near end is. */
  ghost predicate LinkTakes(ovs: map<string, Attachment>, links: LinkMode, net: Network, lbPort: nat, p: nat) {
    match links
    case NoLinks => false
    case MirrorLinks => p == lbPort
    case StackLinks(_) => net.near in ovs && net.far in ovs && p == ovs[net.near].port
  }

  /** A port named at creation gets its own interface, on its own VLAN if it was given one and
      on the network's otherwise, exactly when it is not a coprocessor port as well and nothing
      later overrides its number.  A number asked for inside the window that is preallocated
      next is overridden. */
  lemma PhysicalConfiguredIff(ovs: map<string, Attachment>, links: LinkMode, net: Network, lb: nat,
                              physical: seq<string>, copro: seq<string>, x: string)
    requires x in physical && OwnNumber(ovs, physical, x) && OwnNumber(ovs, copro, x)
    ensures var t, p := CreateIfaces(ovs, links, net, lb, physical, copro), ovs[x].port;
            var vlan := if x in net.physical && net.physical[x].Some? then net.physical[x].value else net.vlan;
            && p in t
            && (t[p] == Physical(x, vlan) <==> x !in copro && !Overridden(ovs, links, net, lb, p))
  {
    PhysicalAt(ovs, net, physical, x);
    CoproAt(ovs, copro, x);
    hide PhysicalIfaces, CoproIfaces, Scan, UsedPorts, Window;
  }

  lemma CoproConfiguredIff(ovs: map<string, Attachment>, links: LinkMode, net: Network, lb: nat,
                           physical: seq<string>, copro: seq<string>, x: string)
    requires x in copro && OwnNumber(ovs, copro, x)
    ensures var t, p := CreateIfaces(ovs, links, net, lb, physical, copro), ovs[x].port;
            && p in t
            && (t[p] == Coprocessor(x) <==> !Overridden(ovs, links, net, lb, p))
  {
    CoproAt(ovs, copro, x);
    hide PhysicalIfaces, CoproIfaces, Scan, UsedPorts, Window;
  }

  /** The case in point: the first port free at creation is where the window starts.  A port
      that asked for a number inside it is there on the bridge and missing in the controller. */
  lemma RequestInsideWindow(ovs: map<string, Attachment>, net: Network, lb: nat)
    requires "eth0" in ovs && ovs["eth0"] == At(net.bridge, 3) && net.preallocate == 3
    requires forall name :: name in ovs && name != "eth0" ==> ovs[name].bridge != net.bridge
    ensures var t := CreateIfaces(ovs, NoLinks, net, lb, ["eth0"], []);
            3 in t && t[3] == Preallocated(net.vlan, Labels.ForNetwork(net.defaultAcl, net.name))
  {
    assert UsedPorts(ovs, net.bridge) == {3};
    assert Scan({3}) == LeastFree({3}, 1) == 1;
    assert InSpan(3, 1, 3);
    SpecialConfigured(ovs, NoLinks, net, lb, ["eth0"], [], 3);
  }

  /** A link's entry is always there.  A NAT or routed network has its gateway at the local port
      unless the link took the number, and a flat one has none; the window's entries carry the
      network's VLAN and its default ACL unless the gateway or the link has the number. */
  lemma SpecialConfigured(ovs: map<string, Attachment>, links: LinkMode, net: Network, lb: nat,
                          physical: seq<string>, copro: seq<string>, p: nat)
    ensures var t := CreateIfaces(ovs, links, net, lb, physical, copro);
            var gateway := net.mode != Flat && !LinkTakes(ovs, links, net, lb, OF_PORT_LOCAL);
            var window := Window(Scan(UsedPorts(ovs, net.bridge)), net.preallocate);
            && (links.MirrorLinks? ==> lb in t && t[lb] == MirrorOut)
            && (links.StackLinks? && net.near in ovs && net.far in ovs ==>
                  ovs[net.near].port in t && t[ovs[net.near].port] == StackLink(links.dp, ovs[net.far].port))
            && (OF_PORT_LOCAL in t && t[OF_PORT_LOCAL].Gateway? <==> gateway)
            && (gateway ==> t[OF_PORT_LOCAL] == Gateway(net.vlan, Labels.ForNetwork(net.natAcl, net.name)))
            && (p in window && !(net.mode != Flat && p == OF_PORT_LOCAL) && !LinkTakes(ovs, links, net, lb, p) ==>
                  p in t && t[p] == Preallocated(net.vlan, Labels.ForNetwork(net.defaultAcl, net.name)))
  {
    NoGateways(ovs, net, physical, copro);
    hide PhysicalIfaces, CoproIfaces, Scan, UsedPorts, Window, Labels.ForNetwork;
  }

  lemma NoGateways(ovs: map<string, Attachment>, net: Network, physical: seq<string>, copro: seq<string>)
    ensures forall p :: p in PhysicalIfaces(ovs, net, physical) ==> PhysicalIfaces(ovs, net, physical)[p].Physical?
    ensures forall p :: p in CoproIfaces(ovs, copro) ==> CoproIfaces(ovs, copro)[p].Coprocessor?
  {
    PhysicalKinds(ovs, net, physical);
    CoproKinds(ovs, copro);
  }

  lemma {:induction false} PhysicalKinds(ovs: map<string, Attachment>, net: Network, names: seq<string>)
    ensures forall p :: p in PhysicalIfaces(ovs, net, names) ==> PhysicalIfaces(ovs, net, names)[p].Physical?
  {
    if names != [] {
      PhysicalKinds(ovs, net, names[..|names| - 1]);
    }
  }

  lemma {:induction false} CoproKinds(ovs: map<string, Attachment>, names: seq<string>)
    ensures forall p :: p in CoproIfaces(ovs, names) ==> CoproIfaces(ovs, names)[p].Coprocessor?
  {
    if names != [] {
      CoproKinds(ovs, names[..|names| - 1]);
    }
  }

  // -------------------------------------------------------------------------------------
  // The handler

  function NotedExternals(ovs: map<string, Attachment>, names: seq<string>, externals: map<string, nat>): map<string, nat> {
    if names == [] || names[0] !in ovs then externals
    else NotedExternals(ovs, names[1..], externals[names[0] := ovs[names[0]].port])
  }

  lemma {:induction false} NotedAt(ovs: map<string, Attachment>, names: seq<string>, externals: map<string, nat>, x: string)
    requires forall y :: y in names ==> y in ovs
    ensures var noted := NotedExternals(ovs, names, externals);
            if x in names then x in noted && noted[x] == ovs[x].port
            else (x in noted <==> x in externals) && (x in noted ==> noted[x] == externals[x])
    decreases |names|
  {
    if names != [] {
      assert names == [names[0]] + names[1..];
      NotedAt(ovs, names[1..], externals[names[0] := ovs[names[0]].port], x);
    }
  }

  ghost function WithExternals(s: State, id: Id, externals: map<string, nat>): State
    requires id in s.networks
  {
    s.(networks := s.networks[id := s.networks[id].(externals := externals)])
  }

  lemma ExecNote(s: State, id: Id, name: string, port: nat, rest: seq<Step>)
    requires id in s.networks
    ensures Exec(s, [RecordExternal(id, name, port)] + rest, NoFault) ==
            Exec(WithExternals(s, id, s.networks[id].externals[name := port]), rest, NoFault)
  {
    hide Exec, Perform, WithExternals, UsedPorts;
    ExecCons(s, RecordExternal(id, name, port), rest, NoFault);
    NoteEffect(s, id, name, port);
  }

  lemma NoteEffect(s: State, id: Id, name: string, port: nat)
    requires id in s.networks
    ensures Perform(s, RecordExternal(id, name, port)) == WithExternals(s, id, s.networks[id].externals[name := port])
  {
    hide Table, WithoutBridge, RemoveFirst, NoteContainer, DropContainer;
  }

  lemma WithExternalsTwice(s: State, id: Id, a: map<string, nat>, b: map<string, nat>)
    requires id in s.networks
    ensures WithExternals(WithExternals(s, id, a), id, b) == WithExternals(s, id, b)
  {
    var net := s.networks[id];
    assert s.networks[id := net.(externals := a)][id := net.(externals := b)] == s.networks[id := net.(externals := b)];
  }

  /** Noting ports one by one gets through to what follows, or panics on the first missing one. */
  lemma {:induction false} ExecExternals(s: State, ovs: map<string, Attachment>, id: Id, names: seq<string>, rest: seq<Step>)
    requires id in s.networks
    ensures if forall x :: x in names ==> x in ovs
            then Exec(s, ExternalSteps(ovs, id, names) + rest, NoFault) ==
                 Exec(WithExternals(s, id, NotedExternals(ovs, names, s.networks[id].externals)), rest, NoFault)
            else !Exec(s, ExternalSteps(ovs, id, names) + rest, NoFault).completed
    decreases |names|
  {
    hide Exec, WithExternals;
    var externals := s.networks[id].externals;
    if names == [] {
      assert ExternalSteps(ovs, id, names) + rest == rest;
      SameExternals(s, id);
    } else if names[0] !in ovs {
      assert names[0] in names;
      assert ExternalSteps(ovs, id, names) + rest == [Panic] + rest;
      ExecCons(s, Panic, rest, NoFault);
    } else {
      assert names == [names[0]] + names[1..];
      var port := ovs[names[0]].port;
      var more := ExternalSteps(ovs, id, names[1..]);
      assert ExternalSteps(ovs, id, names) + rest == [RecordExternal(id, names[0], port)] + (more + rest);
      ExecNote(s, id, names[0], port, more + rest);
      var s1 := WithExternals(s, id, externals[names[0] := port]);
      ExternalsOf(s, id, externals[names[0] := port]);
      ExecExternals(s1, ovs, id, names[1..], rest);
      WithExternalsTwice(s, id, externals[names[0] := port], NotedExternals(ovs, names, externals));
    }
  }

  lemma SameExternals(s: State, id: Id)
    requires id in s.networks
    ensures WithExternals(s, id, s.networks[id].externals) == s
  {
    var net := s.networks[id];
    assert s.networks[id := net.(externals := net.externals)] == s.networks;
  }

  lemma ExternalsOf(s: State, id: Id, externals: map<string, nat>)
    requires id in s.networks
    ensures var s' := WithExternals(s, id, externals);
            id in s'.networks && s'.networks[id].externals == externals && s'.faucet == s.faucet && s'.ovs == s.ovs
  {
  }

  /** ExternalPorts as a new network should have it. */
  ghost predicate ExternalsRecorded(s: State, net: Network, names: seq<string>, externals: map<string, nat>) {
    && (net.mode != Flat ==> net.bridge in externals && externals[net.bridge] == OF_PORT_LOCAL)
    && (forall x :: x in names && !(net.mode != Flat && x == net.bridge) ==>
          x in s.ovs && x in externals && externals[x] == s.ovs[x].port)
    && (forall x :: x in externals ==> x in names || (net.mode != Flat && x == net.bridge))
  }

  /** Creation without a fault, its ports all plugged in: the controller's table is merged with
      exactly the interfaces above, and ExternalPorts lists the network's own ports and gateway
      at their numbers and nothing else.  The order in which the port maps are visited does not
      matter to either statement. */
  lemma CreateTheorem(s: State, id: Id, net: Network, lb: nat, physical: seq<string>, copro: seq<string>)
    requires forall x :: x in physical + copro + LinkEnds(s.links, net) ==> x in s.ovs
    ensures var r := Exec(s, CreateScript(s, id, net, lb, physical, copro), NoFault);
            && r.completed && id in r.state.networks
            && Table(r.state, net.name) == Table(s, net.name) + CreateIfaces(s.ovs, s.links, net, lb, physical, copro)
            && (net.externals == map[] ==> ExternalsRecorded(s, net, physical + copro, r.state.networks[id].externals))
  {
    hide Exec, CreateIfaces, NotedExternals, WithExternals, CreateScript, Table;
    var ifaces := CreateIfaces(s.ovs, s.links, net, lb, physical, copro);
    var s1 := s.(mirrors := s.mirrors[id := lb], networks := s.networks[id := net]);
    var noted := NotedExternals(s.ovs, copro, NotedExternals(s.ovs, physical, net.externals));
    assert forall x :: x in physical + copro || x in LinkEnds(s.links, net) ==> x in physical + copro + LinkEnds(s.links, net);
    hide LinkEnds, LookupSteps;
    CreateSteps(s, s1, id, net, lb, physical, copro);
    CreateEnd(s1, s.ovs, LinkEnds(s.links, net), id, net, noted, ifaces);
    assert Table(s1, net.name) == Table(s, net.name) by { SameTables(s, s1); }
    if net.externals == map[] {
      NotedBoth(s.ovs, physical, copro);
      NotedRecorded(s, net, physical + copro, noted);
    }
  }

  lemma NotedRecorded(s: State, net: Network, names: seq<string>, noted: map<string, nat>)
    requires forall x :: x in names ==> x in s.ovs
    requires forall x :: if x in names then x in noted && noted[x] == s.ovs[x].port else x !in noted
    ensures ExternalsRecorded(s, net, names, if HasGateway(net) then noted[net.bridge := OF_PORT_LOCAL] else noted)
  {
  }

  /** With no fault, creation runs to its end exactly when every port it names and every link
      end it looks up is plugged in. */
  lemma CreateFinishesIff(s: State, id: Id, net: Network, lb: nat, physical: seq<string>, copro: seq<string>)
    ensures Exec(s, CreateScript(s, id, net, lb, physical, copro), NoFault).completed <==>
            && (forall x :: x in physical + copro ==> x in s.ovs)
            && (s.links.MirrorLinks? ==> net.far in s.ovs)
            && (s.links.StackLinks? ==> net.near in s.ovs && net.far in s.ovs)
  {
    var ends := LinkEnds(s.links, net);
    EndsPlugged(s, net);
    hide Exec, CreateIfaces, NotedExternals, WithExternals, CreateScript, LookupSteps, LinkEnds, Table;
    var s1 := s.(mirrors := s.mirrors[id := lb], networks := s.networks[id := net]);
    CreateSteps(s, s1, id, net, lb, physical, copro);
    CreateEnd(s1, s.ovs, ends, id, net, NotedExternals(s.ovs, copro, NotedExternals(s.ovs, physical, net.externals)),
              CreateIfaces(s.ovs, s.links, net, lb, physical, copro));
  }

  lemma EndsPlugged(s: State, net: Network)
    ensures (forall x :: x in LinkEnds(s.links, net) ==> x in s.ovs) <==>
            (s.links.MirrorLinks? ==> net.far in s.ovs) && (s.links.StackLinks? ==> net.near in s.ovs && net.far in s.ovs)
  {
  }

  lemma SameTables(s: State, s': State)
    requires s'.faucet == s.faucet
    ensures forall dp :: Table(s', dp) == Table(s, dp)
  {
  }

  lemma NotedBoth(ovs: map<string, Attachment>, physical: seq<string>, copro: seq<string>)
    requires forall x :: x in physical + copro ==> x in ovs
    ensures var noted := NotedExternals(ovs, copro, NotedExternals(ovs, physical, map[]));
            forall x :: if x in physical + copro then x in noted && noted[x] == ovs[x].port else x !in noted
  {
    hide NotedExternals;
    assert forall x :: x in physical || x in copro ==> x in physical + copro;
    forall x ensures var noted := NotedExternals(ovs, copro, NotedExternals(ovs, physical, map[]));
                     if x in physical + copro then x in noted && noted[x] == ovs[x].port else x !in noted {
      NotedAt(ovs, physical, map[], x);
      NotedAt(ovs, copro, NotedExternals(ovs, physical, map[]), x);
    }
  }

  /** Up to the gateway: the network is recorded and its ports are noted. */
  lemma CreateSteps(s: State, s1: State, id: Id, net: Network, lb: nat, physical: seq<string>, copro: seq<string>)
    requires s1 == s.(mirrors := s.mirrors[id := lb], networks := s.networks[id := net])
    ensures var gateway := if HasGateway(net) then [RecordExternal(id, net.bridge, OF_PORT_LOCAL)] else [];
            var merge := MergeIfaces(net.name, CreateIfaces(s.ovs, s.links, net, lb, physical, copro));
            var noted := NotedExternals(s.ovs, copro, NotedExternals(s.ovs, physical, net.externals));
            var r := Exec(s, CreateScript(s, id, net, lb, physical, copro), NoFault);
            if forall x :: x in physical + copro ==> x in s.ovs then
              r == Exec(WithExternals(s1, id, noted), gateway + (LookupSteps(s.ovs, LinkEnds(s.links, net)) + [merge]), NoFault)
            else !r.completed
  {
    hide Exec, CreateIfaces, ExternalSteps, NotedExternals, WithExternals, LookupSteps;
    var gateway := if HasGateway(net) then [RecordExternal(id, net.bridge, OF_PORT_LOCAL)] else [];
    var merge := MergeIfaces(net.name, CreateIfaces(s.ovs, s.links, net, lb, physical, copro));
    var rest := gateway + (LookupSteps(s.ovs, LinkEnds(s.links, net)) + [merge]);
    var more := ExternalSteps(s.ovs, id, copro) + rest;
    assert CreateScript(s, id, net, lb, physical, copro) == [RecordNetwork(id, net, lb)] + (ExternalSteps(s.ovs, id, physical) + more);
    ExecCons(s, RecordNetwork(id, net, lb), ExternalSteps(s.ovs, id, physical) + more, NoFault);
    assert Perform(s, RecordNetwork(id, net, lb)) == s1;
    hide Perform, CreateScript;
    assert forall x :: x in physical || x in copro ==> x in physical + copro;
    assert forall x :: x in physical + copro ==> x in physical || x in copro;
    ExecExternals(s1, s.ovs, id, physical, more);
    var x1 := NotedExternals(s.ovs, physical, net.externals);
    ExternalsOf(s1, id, x1);
    ExecExternals(WithExternals(s1, id, x1), s.ovs, id, copro, rest);
    WithExternalsTwice(s1, id, x1, NotedExternals(s.ovs, copro, x1));
  }

  lemma {:induction false} ExecLookups(s: State, ovs: map<string, Attachment>, names: seq<string>, rest: seq<Step>)
    ensures if forall x :: x in names ==> x in ovs
            then Exec(s, LookupSteps(ovs, names) + rest, NoFault) == Exec(s, rest, NoFault)
            else !Exec(s, LookupSteps(ovs, names) + rest, NoFault).completed
    decreases |names|
  {
    hide Exec;
    if names == [] {
      assert LookupSteps(ovs, names) + rest == rest;
    } else if names[0] !in ovs {
      assert names[0] in names;
      assert LookupSteps(ovs, names) + rest == [Panic] + rest;
      ExecCons(s, Panic, rest, NoFault);
    } else {
      assert names == [names[0]] + names[1..];
      var more := LookupSteps(ovs, names[1..]) + rest;
      assert LookupSteps(ovs, names) + rest == [Call] + more;
      ExecCall(s, more, NoFault);
      ExecLookups(s, ovs, names[1..], rest);
    }
  }

  lemma CreateEnd(s1: State, ovs: map<string, Attachment>, ends: seq<string>, id: Id, net: Network,
                  externals: map<string, nat>, ifaces: map<nat, Iface>)
    requires id in s1.networks
    ensures var gateway := if HasGateway(net) then [RecordExternal(id, net.bridge, OF_PORT_LOCAL)] else [];
            var rest := LookupSteps(ovs, ends) + [MergeIfaces(net.name, ifaces)];
            var r := Exec(WithExternals(s1, id, externals), gateway + rest, NoFault);
            if forall x :: x in ends ==> x in ovs then
              && r.completed && id in r.state.networks
              && r.state.networks[id].externals == (if HasGateway(net) then externals[net.bridge := OF_PORT_LOCAL] else externals)
              && Table(r.state, net.name) == Table(s1, net.name) + ifaces
            else !r.completed
  {
    hide Exec, WithExternals, LookupSteps, Perform, Table, UsedPorts;
    var s2 := WithExternals(s1, id, externals);
    var merge := MergeIfaces(net.name, ifaces);
    ExternalsOf(s1, id, externals);
    var all := if HasGateway(net) then externals[net.bridge := OF_PORT_LOCAL] else externals;
    var s3 := WithExternals(s1, id, all);
    ExternalsOf(s1, id, all);
    var rest := LookupSteps(ovs, ends) + [merge];
    if HasGateway(net) {
      ExecNote(s2, id, net.bridge, OF_PORT_LOCAL, rest);
      WithExternalsTwice(s1, id, externals, all);
    } else {
      assert [] + rest == rest;
    }
    ExecLookups(s3, ovs, ends, [merge]);
    assert [merge] == [merge] + [];
    ExecCons(s3, merge, [], NoFault);
    ExecNil(Perform(s3, merge), NoFault);
    MergeEffect(s3, net.name, ifaces);
    assert Table(s3, net.name) == Table(s1, net.name) by { SameTables(s1, s3); }
  }

  lemma MergeEffect(s: State, dp: string, ifaces: map<nat, Iface>)
    ensures var s' := Perform(s, MergeIfaces(dp, ifaces));
            s'.networks == s.networks && Table(s', dp) == Table(s, dp) + ifaces
  {
  }
}
