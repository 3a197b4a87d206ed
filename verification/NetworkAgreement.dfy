/** The agreement under network creation and deletion, reconciliation and the host's own changes. */
module NetworkAgreement {
  import opened Types
  import opened Ports
  import opened Rules
  import opened World
  import opened Handlers
  import opened Agreement
  import R = Reconciler

  // -------------------------------------------------------------------------------------
  // Create

  /** Steps that only fill in a network's own ExternalPorts and interface table, with nothing
      that belongs to a container. */
  ghost predicate Filling(step: Step, id: Id, dp: string) {
    || (step.RecordExternal? && step.id == id)
    || step.Panic? || step.Call?
    || (step.MergeIfaces? && step.dp == dp && forall p :: p in step.ifaces ==> !step.ifaces[p].Container?)
  }

  ghost predicate Filled(s: State, s': State, id: Id, dp: string) {
    && s' == s.(networks := s'.networks, faucet := s'.faucet)
    && s'.networks.Keys == s.networks.Keys
    && (forall n :: n in s.networks ==>
          s'.networks[n] == s.networks[n].(externals := s'.networks[n].externals))
    && (forall n :: n in s.networks && n != id ==> s'.networks[n] == s.networks[n])
    && (forall d :: d != dp ==> Table(s', d) == Table(s, d))
    && (forall p :: p in Table(s', dp) && Table(s', dp)[p].Container? ==> p in Table(s, dp) && Table(s, dp)[p].Container?)
  }

  lemma FillOne(s: State, step: Step, id: Id, dp: string)
    requires Filling(step, id, dp)
    ensures Filled(s, Perform(s, step), id, dp)
  {
    hide Filled;
    match step
    case MergeIfaces(dp, ifaces) => FillMerge(s, dp, ifaces, id);
    case RecordExternal(id, name, port) => FillExternal(s, id, name, port, dp);
    case Call => FillNothing(s, id, dp);
    case Panic => FillNothing(s, id, dp);
  }

  lemma FillNothing(s: State, id: Id, dp: string)
    ensures Filled(s, s, id, dp)
  {
  }

  lemma FillExternal(s: State, id: Id, name: string, port: nat, dp: string)
    ensures Filled(s, Perform(s, RecordExternal(id, name, port)), id, dp)
  {
    if id in s.networks {
      var net := s.networks[id];
      var s' := s.(networks := s.networks[id := net.(externals := net.externals[name := port])]);
      assert Perform(s, RecordExternal(id, name, port)) == s';
      hide Perform;
      assert forall d :: Table(s', d) == Table(s, d);
      assert s'.networks.Keys == s.networks.Keys;
    }
  }

  lemma FillMerge(s: State, dp: string, ifaces: map<nat, Iface>, id: Id)
    requires forall p :: p in ifaces ==> !ifaces[p].Container?
    ensures Filled(s, Perform(s, MergeIfaces(dp, ifaces)), id, dp)
  {
    var s' := s.(faucet := s.faucet[dp := Table(s, dp) + ifaces]);
    assert Perform(s, MergeIfaces(dp, ifaces)) == s';
    assert Table(s', dp) == Table(s, dp) + ifaces;
    assert forall d :: d != dp ==> Table(s', d) == Table(s, d);
  }

  lemma FilledTransitive(s: State, s1: State, s2: State, id: Id, dp: string)
    requires Filled(s, s1, id, dp) && Filled(s1, s2, id, dp)
    ensures Filled(s, s2, id, dp)
  {
  }

  lemma {:induction false} ExecFilling(s: State, script: seq<Step>, luck: Luck, id: Id, dp: string)
    requires forall i :: 0 <= i < |script| ==> Filling(script[i], id, dp)
    ensures Filled(s, Exec(s, script, luck).state, id, dp)
    decreases |script|
  {
    if script != [] && luck != FaultAfter(0) && Enabled(s, script[0]) {
      var s1 := Perform(s, script[0]);
      FillOne(s, script[0], id, dp);
      ExecFilling(s1, script[1..], Spend(luck), id, dp);
      FilledTransitive(s, s1, Exec(s1, script[1..], Spend(luck)).state, id, dp);
    }
  }

  lemma {:induction false} ExternalStepsFill(ovs: map<string, Attachment>, id: Id, names: seq<string>, dp: string)
    ensures forall i :: 0 <= i < |ExternalSteps(ovs, id, names)| ==> Filling(ExternalSteps(ovs, id, names)[i], id, dp)
  {
    if names != [] {
      ExternalStepsFill(ovs, id, names[1..], dp);
    }
  }

  lemma {:induction false} LookupStepsFill(ovs: map<string, Attachment>, id: Id, names: seq<string>, dp: string)
    ensures forall i :: 0 <= i < |LookupSteps(ovs, names)| ==> Filling(LookupSteps(ovs, names)[i], id, dp)
  {
    if names != [] {
      LookupStepsFill(ovs, id, names[1..], dp);
    }
  }

  lemma {:induction false} PhysicalIfacesPlain(ovs: map<string, Attachment>, net: Network, names: seq<string>)
    ensures forall p :: p in PhysicalIfaces(ovs, net, names) ==> !PhysicalIfaces(ovs, net, names)[p].Container?
  {
    if names != [] {
      PhysicalIfacesPlain(ovs, net, names[..|names| - 1]);
    }
  }

  lemma {:induction false} CoproIfacesPlain(ovs: map<string, Attachment>, names: seq<string>)
    ensures forall p :: p in CoproIfaces(ovs, names) ==> !CoproIfaces(ovs, names)[p].Container?
  {
    if names != [] {
      CoproIfacesPlain(ovs, names[..|names| - 1]);
    }
  }

  lemma CreateIfacesPlain(ovs: map<string, Attachment>, links: LinkMode, net: Network, lb: nat, physical: seq<string>, copro: seq<string>)
    ensures forall p :: p in CreateIfaces(ovs, links, net, lb, physical, copro) ==> !CreateIfaces(ovs, links, net, lb, physical, copro)[p].Container?
  {
    PhysicalIfacesPlain(ovs, net, physical);
    CoproIfacesPlain(ovs, copro);
    var ports := PhysicalIfaces(ovs, net, physical) + CoproIfaces(ovs, copro) + PreallocatedIfaces(ovs, net);
    assert forall p :: p in ports ==> !ports[p].Container?;
  }

  function CreateTail(s: State, id: Id, net: Network, lb: nat, physical: seq<string>, copro: seq<string>): seq<Step> {
    ExternalSteps(s.ovs, id, physical)
    + ExternalSteps(s.ovs, id, copro)
    + (if HasGateway(net) then [RecordExternal(id, net.bridge, OF_PORT_LOCAL)] else [])
    + LookupSteps(s.ovs, LinkEnds(s.links, net))
    + [MergeIfaces(net.name, CreateIfaces(s.ovs, s.links, net, lb, physical, copro))]
  }

  lemma CreateTailFills(s: State, id: Id, net: Network, lb: nat, physical: seq<string>, copro: seq<string>)
    ensures CreateScript(s, id, net, lb, physical, copro) ==
            [RecordNetwork(id, net, lb)] + CreateTail(s, id, net, lb, physical, copro)
    ensures var tail := CreateTail(s, id, net, lb, physical, copro);
            forall i :: 0 <= i < |tail| ==> Filling(tail[i], id, net.name)
  {
    ExternalStepsFill(s.ovs, id, physical, net.name);
    ExternalStepsFill(s.ovs, id, copro, net.name);
    LookupStepsFill(s.ovs, id, LinkEnds(s.links, net), net.name);
    CreateIfacesPlain(s.ovs, s.links, net, lb, physical, copro);
    hide ExternalSteps, CreateIfaces, LookupSteps;
    assert Filling(MergeIfaces(net.name, CreateIfaces(s.ovs, s.links, net, lb, physical, copro)), id, net.name);
    assert Filling(RecordExternal(id, net.bridge, OF_PORT_LOCAL), id, net.name);
    hide Filling;
  }

  /** Creating a network either does nothing, or records it and then fills in its own tables. */
  lemma CreateResult(s: State, id: Id, net: Network, lb: nat, physical: seq<string>, copro: seq<string>, luck: Luck)
    ensures var s' := Exec(s, CreateScript(s, id, net, lb, physical, copro), luck).state;
            if luck == FaultAfter(0) then s' == s
            else Filled(Perform(s, RecordNetwork(id, net, lb)), s', id, net.name)
  {
    hide Exec, CreateScript, CreateTail, Filled, Filling;
    var tail := CreateTail(s, id, net, lb, physical, copro);
    CreateTailFills(s, id, net, lb, physical, copro);
    ExecCons(s, RecordNetwork(id, net, lb), tail, luck);
    ExecFilling(Perform(s, RecordNetwork(id, net, lb)), tail, Spend(luck), id, net.name);
  }

  lemma CreateAgrees(sys: Sys, id: Id, physical: seq<string>, copro: seq<string>)
    requires Agree(sys) && Legal(sys, CreateNetwork(id, physical, copro))
    ensures Agree(Next(sys, CreateNetwork(id, physical, copro), NoFault))
  {
    var s := sys.state;
    var net, lb := sys.docker.nets[id].network, sys.docker.nets[id].lbPort;
    var sys' := Next(sys, CreateNetwork(id, physical, copro), NoFault);
    CreateResult(s, id, net, lb, physical, copro, NoFault);
    CreateParts(sys, sys', id);
  }

  ghost predicate Creates(sys: Sys, sys': Sys, id: Id) {
    && id in sys.docker.nets && !sys.docker.nets[id].created
    && sys'.docker == sys.docker.(nets := sys.docker.nets[id := sys.docker.nets[id].(created := true)])
    && Filled(Perform(sys.state, RecordNetwork(id, sys.docker.nets[id].network, sys.docker.nets[id].lbPort)),
              sys'.state, id, sys.docker.nets[id].network.name)
  }

  lemma CreateParts(sys: Sys, sys': Sys, id: Id)
    requires Agree(sys) && Creates(sys, sys', id)
    ensures Agree(sys')
  {
    hide Veth, IsContainerPort, NetworksOk, EndpointsOk, OwnersOk;
    CreateShape(sys, sys', id);
    hide Filled, Perform, Table;
    CreateNetworks(sys, sys', id);
    CreateEndpoints(sys, sys', id);
    CreateOwners(sys, sys', id);
  }

  lemma CreateNetworks(sys: Sys, sys': Sys, id: Id)
    requires NetworksOk(sys) && Creates(sys, sys', id)
    ensures NetworksOk(sys')
  {
    CreateShape(sys, sys', id);
    hide Filled, Perform, Table, SameNetwork;
    ApartWith(sys.docker.nets, id, sys.docker.nets[id].(created := true));
    RecordedNetwork(sys, sys', id);
  }

  lemma ApartWith(nets: map<Id, Requested>, id: Id, r: Requested)
    requires NetsApart(nets)
    requires forall m :: m in nets && m != id ==> nets[m].network.name != r.network.name && nets[m].network.bridge != r.network.bridge
    ensures NetsApart(nets[id := r])
  {
  }

  lemma RecordedNetwork(sys: Sys, sys': Sys, id: Id)
    requires NetworksOk(sys) && id in sys.docker.nets && NetsApart(sys'.docker.nets)
    requires sys'.docker.nets == sys.docker.nets[id := sys.docker.nets[id].(created := true)]
    requires sys'.state.networks.Keys == sys.state.networks.Keys + {id} && sys'.state.bridges == sys.state.bridges
    requires sys'.state.mirrors.Keys == sys.state.mirrors.Keys + {id}
    requires SameNetwork(sys'.state.networks[id], sys.docker.nets[id].network)
    requires forall n :: n in sys.state.networks && n != id ==> sys'.state.networks[n] == sys.state.networks[n]
    ensures NetworksOk(sys')
  {
    hide NetsApart, SameNetwork, NetworksOk;
    NetworkByNetwork(sys);
    NetworkByNetwork(sys');
    forall n ensures NetworkOk(sys', n) {
      assert NetworkOk(sys, n);
    }
  }

  lemma CreateShape(sys: Sys, sys': Sys, id: Id)
    requires Creates(sys, sys', id)
    ensures var s, s' := sys.state, sys'.state;
            && s'.networks.Keys == s.networks.Keys + {id} && s'.bridges == s.bridges && s'.ovs == s.ovs
            && s'.mirrors == s.mirrors[id := sys.docker.nets[id].lbPort]
            && SameNetwork(s'.networks[id], sys.docker.nets[id].network)
            && (forall n :: n in s.networks && n != id ==> s'.networks[n] == s.networks[n])
  {
    var s, net, lb := sys.state, sys.docker.nets[id].network, sys.docker.nets[id].lbPort;
    assert Perform(s, RecordNetwork(id, net, lb)) == s.(mirrors := s.mirrors[id := lb], networks := s.networks[id := net]);
    hide Perform, Table;
  }

  /** An operation on another network leaves an endpoint's records as they are. */
  lemma KeptRecords(sys: Sys, sys': Sys, e: Id)
    requires e in sys.docker.eps && Plugged(sys, e) && sys'.docker.eps == sys.docker.eps
    requires var n := sys.docker.eps[e].network;
             && n in sys'.state.networks && sys'.state.networks[n] == sys.state.networks[n]
             && Table(sys'.state, sys.state.networks[n].name) == Table(sys.state, sys.state.networks[n].name)
    requires sys'.state.ofPorts == sys.state.ofPorts
    requires Veth(e) in sys'.state.ovs && sys'.state.ovs[Veth(e)] == sys.state.ovs[Veth(e)]
    ensures SameRecords(sys, sys', e)
  {
    hide Veth, Table;
  }

  lemma CreateKeeps(sys: Sys, sys': Sys, id: Id, e: Id)
    requires NetworksOk(sys) && Creates(sys, sys', id) && e in sys.docker.eps && Plugged(sys, e)
    ensures SameRecords(sys, sys', e)
  {
    hide Veth, SameRecords;
    var n := sys.docker.eps[e].network;
    NamesApart(sys, id, n);
    hide NetworksOk, NetsApart, SameNetwork;
    CreateShape(sys, sys', id);
    CreateSameRest(sys, sys', id);
    CreateTables(sys, sys', id, sys.state.networks[n].name);
    hide Perform, Filled, Table;
    KeptRecords(sys, sys', e);
  }

  /** A network being created has a name no recorded network has. */
  lemma NamesApart(sys: Sys, id: Id, n: Id)
    requires NetworksOk(sys) && id in sys.docker.nets && !sys.docker.nets[id].created && n in sys.state.networks
    ensures n != id && sys.state.networks[n].name != sys.docker.nets[id].network.name
  {
  }

  lemma CreateTables(sys: Sys, sys': Sys, id: Id, dp: string)
    requires Creates(sys, sys', id) && dp != sys.docker.nets[id].network.name
    ensures Table(sys'.state, dp) == Table(sys.state, dp)
  {
    RecordTables(sys.state, id, sys.docker.nets[id].network, sys.docker.nets[id].lbPort);
    hide Perform;
  }

  lemma CreateEndpoints(sys: Sys, sys': Sys, id: Id)
    requires NetworksOk(sys) && EndpointsOk(sys) && Creates(sys, sys', id)
    ensures EndpointsOk(sys')
  {
    hide Veth, NetworksOk, Filled;
    forall e | e in sys.docker.eps ensures SameRecords(sys, sys', e) {
      assert EndpointOk(sys, e);
      CreateKeeps(sys, sys', id, e);
    }
    assert sys'.state.ofPorts == sys.state.ofPorts by { CreateSameRest(sys, sys', id); }
    EndpointsFrame(sys, sys');
  }

  lemma CreateSameRest(sys: Sys, sys': Sys, id: Id)
    requires Creates(sys, sys', id)
    ensures sys'.state.ofPorts == sys.state.ofPorts && sys'.state.ovs == sys.state.ovs && sys'.state.rules == sys.state.rules
  {
  }

  lemma CreateOwners(sys: Sys, sys': Sys, id: Id)
    requires NetworksOk(sys) && OwnersOk(sys) && Creates(sys, sys', id)
    ensures OwnersOk(sys')
  {
    hide Veth, IsContainerPort, OwnersOk, NothingNew, NetsApart, Table;
    CreateNothingNew(sys, sys', id);
    CreateSameRest(sys, sys', id);
    CreateShape(sys, sys', id);
    hide Filled, Perform;
    OwnersFrame(sys, sys');
  }

  lemma CreateNothingNew(sys: Sys, sys': Sys, id: Id)
    requires NetworksOk(sys) && Creates(sys, sys', id)
    ensures NothingNew(sys.state, sys'.state)
  {
    hide Veth, IsContainerPort, NetworksOk, Perform, Filled;
    var s, s' := sys.state, sys'.state;
    var net, lb := sys.docker.nets[id].network, sys.docker.nets[id].lbPort;
    var s1 := Perform(s, RecordNetwork(id, net, lb));
    assert net.containers == map[] by { CreatesEmpty(sys, sys', id); }
    CreateSameRest(sys, sys', id);
    RecordTables(s, id, net, lb);
    FilledTables(s1, s', id, net.name);
    CreateContainers(s, s', id, net, lb);
  }

  lemma CreatesEmpty(sys: Sys, sys': Sys, id: Id)
    requires NetworksOk(sys) && Creates(sys, sys', id)
    ensures sys.docker.nets[id].network.containers == map[]
  {
  }

  lemma RecordTables(s: State, id: Id, net: Network, lb: nat)
    ensures forall dp :: Table(Perform(s, RecordNetwork(id, net, lb)), dp) == Table(s, dp)
  {
  }

  lemma FilledTables(s: State, s': State, id: Id, name: string)
    requires Filled(s, s', id, name)
    ensures forall dp, p :: p in Table(s', dp) && Table(s', dp)[p].Container? ==> p in Table(s, dp) && Table(s, dp)[p].Container?
  {
    forall dp, p | p in Table(s', dp) && Table(s', dp)[p].Container? ensures p in Table(s, dp) && Table(s, dp)[p].Container? {
      if dp != name {
        assert Table(s', dp) == Table(s, dp);
      }
    }
  }

  lemma CreateContainers(s: State, s': State, id: Id, net: Network, lb: nat)
    requires Filled(Perform(s, RecordNetwork(id, net, lb)), s', id, net.name) && net.containers == map[]
    ensures forall n, e :: n in s'.networks && e in s'.networks[n].containers ==> n in s.networks && e in s.networks[n].containers
  {
    hide Table;
  }

  // -------------------------------------------------------------------------------------
  // Delete

  function DeletedState(s: State, id: Id): State
    requires id in s.networks
  {
    var net := s.networks[id];
    s.(faucet := s.faucet - {net.name},
       rules := if net.mode == Nat then RemoveFirst(s.rules, MasqueradeOut(net.cidr)) else s.rules,
       bridges := s.bridges - {net.bridge},
       ovs := WithoutBridge(s.ovs, net.bridge),
       networks := s.networks - {id},
       mirrors := s.mirrors - {id})
  }

  /** The script's steps, in order, amount to the deleted state. */
  lemma DeleteEffect(s: State, id: Id)
    requires id in s.networks
    ensures var net := s.networks[id];
            var s1 := Perform(s, DelDp(net.name));
            var s2 := if net.mode == Nat then Perform(s1, DelRule(MasqueradeOut(net.cidr))) else s1;
            && s1.rules == s.rules && s2.bridges == s.bridges
            && Perform(Perform(s2, DelBridge(net.bridge)), ForgetNetwork(id)) == DeletedState(s, id)
  {
  }

  lemma DeleteResult(s: State, id: Id)
    requires id in s.networks && s.networks[id].bridge in s.bridges
    requires s.networks[id].mode == Nat ==> MasqueradeOut(s.networks[id].cidr) in s.rules
    ensures Exec(s, DeleteScript(s, id), NoFault) == Outcome(DeletedState(s, id), true)
  {
    hide Exec, Perform, DeletedState;
    var net := s.networks[id];
    var deldp, delbr, forget := DelDp(net.name), DelBridge(net.bridge), ForgetNetwork(id);
    var s1 := Perform(s, deldp);
    var s2 := if net.mode == Nat then Perform(s1, DelRule(MasqueradeOut(net.cidr))) else s1;
    DeleteEffect(s, id);
    if net.mode == Nat {
      var rule := DelRule(MasqueradeOut(net.cidr));
      assert DeleteScript(s, id) == [deldp] + ([rule] + [delbr, forget]);
      ExecCons(s, deldp, [rule] + [delbr, forget], NoFault);
      ExecCons(s1, rule, [delbr, forget], NoFault);
    } else {
      assert DeleteScript(s, id) == [deldp] + [delbr, forget];
      ExecCons(s, deldp, [delbr, forget], NoFault);
    }
    assert [delbr, forget] == [delbr] + [forget] && [forget] == [forget] + [];
    ExecCons(s2, delbr, [forget], NoFault);
    var s3 := Perform(s2, delbr);
    ExecCons(s3, forget, [], NoFault);
    ExecNil(Perform(s3, forget), NoFault);
  }

  ghost predicate Deletes(sys: Sys, sys': Sys, id: Id) {
    && id in sys.docker.nets && id in sys.state.networks
    && sys'.docker == sys.docker.(nets := sys.docker.nets - {id})
    && sys'.state == DeletedState(sys.state, id)
    && (forall e :: e in sys.docker.eps ==> sys.docker.eps[e].network != id)
  }

  /** A NAT network's masquerading rule is still there. */
  ghost predicate HasNatRule(s: State, id: Id) {
    id in s.networks && s.networks[id].mode == Nat ==> MasqueradeOut(s.networks[id].cidr) in s.rules
  }

  lemma DeleteAgrees(sys: Sys, id: Id)
    requires Agree(sys) && Legal(sys, DeleteNetwork(id)) && HasNatRule(sys.state, id)
    ensures Exec(sys.state, DeleteScript(sys.state, id), NoFault).completed
    ensures Agree(Next(sys, DeleteNetwork(id), NoFault))
  {
    hide Veth, IsContainerPort, Exec, DeleteScript;
    var sys' := Next(sys, DeleteNetwork(id), NoFault);
    DeleteResult(sys.state, id);
    assert Deletes(sys, sys', id);
    DeleteParts(sys, sys', id);
  }

  lemma DeleteParts(sys: Sys, sys': Sys, id: Id)
    requires Agree(sys) && Deletes(sys, sys', id)
    ensures Agree(sys')
  {
    hide Veth, IsContainerPort, NetworksOk, EndpointsOk, OwnersOk;
    assert OvsOk(sys'.state);
    DeleteNetworks(sys, sys', id);
    DeleteEndpoints(sys, sys', id);
    DeleteOwners(sys, sys', id);
  }

  lemma DeleteNetworks(sys: Sys, sys': Sys, id: Id)
    requires NetworksOk(sys) && Deletes(sys, sys', id)
    ensures NetworksOk(sys')
  {
    DeleteShape(sys, sys', id);
    NetworkByNetwork(sys);
    hide NetworksOk, SameNetwork, DeletedState;
    ApartWithout(sys.docker.nets, id);
    forall n ensures NetworkOk(sys', n) {
      OtherNetworkStays(sys, sys', id, n);
    }
    hide NetsApart, NetworkOk;
    NetworkByNetwork(sys');
  }

  lemma OtherNetworkStays(sys: Sys, sys': Sys, id: Id, n: Id)
    requires NetworkOk(sys, n) && NetsApart(sys.docker.nets) && id in sys.docker.nets
    requires sys'.docker.nets == sys.docker.nets - {id}
    requires sys'.state.networks == sys.state.networks - {id} && sys'.state.mirrors == sys.state.mirrors - {id}
    requires sys'.state.bridges == sys.state.bridges - {sys.docker.nets[id].network.bridge}
    ensures NetworkOk(sys', n)
  {
    hide SameNetwork;
    assert n in sys'.docker.nets ==> sys.docker.nets[n].network.bridge != sys.docker.nets[id].network.bridge;
  }

  lemma ApartWithout(nets: map<Id, Requested>, id: Id)
    requires NetsApart(nets)
    ensures NetsApart(nets - {id})
  {
  }

  lemma DeleteShape(sys: Sys, sys': Sys, id: Id)
    requires NetworksOk(sys) && Deletes(sys, sys', id)
    ensures sys'.docker.nets == sys.docker.nets - {id}
    ensures sys'.state.networks == sys.state.networks - {id} && sys'.state.mirrors == sys.state.mirrors - {id}
    ensures sys'.state.bridges == sys.state.bridges - {sys.docker.nets[id].network.bridge}
  {
    hide NetsApart, WithoutBridge;
  }

  lemma DeleteKeeps(sys: Sys, sys': Sys, id: Id, e: Id)
    requires NetworksOk(sys) && Deletes(sys, sys', id) && e in sys.docker.eps && Plugged(sys, e)
    ensures SameRecords(sys, sys', e)
  {
    hide Veth, SameRecords;
    NamesDiffer(sys, id, sys.docker.eps[e].network);
    hide NetworksOk;
    KeptRecords(sys, sys', e);
  }

  lemma DeleteEndpoints(sys: Sys, sys': Sys, id: Id)
    requires NetworksOk(sys) && EndpointsOk(sys) && Deletes(sys, sys', id)
    ensures EndpointsOk(sys')
  {
    hide Veth, NetworksOk;
    forall e | e in sys.docker.eps ensures SameRecords(sys, sys', e) {
      assert EndpointOk(sys, e);
      DeleteKeeps(sys, sys', id, e);
    }
    EndpointsFrame(sys, sys');
  }

  lemma DeleteOwners(sys: Sys, sys': Sys, id: Id)
    requires OwnersOk(sys) && Deletes(sys, sys', id)
    ensures OwnersOk(sys')
  {
    hide Veth, IsContainerPort;
    var s, s' := sys.state, sys'.state;
    forall dp, p | p in Table(s', dp) && Table(s', dp)[p].Container? ensures exists e :: Owns(sys', e, dp, p) {
      assert p in Table(s, dp) && Table(s, dp)[p].Container?;
      var e :| Owns(sys, e, dp, p);
      assert Owns(sys', e, dp, p);
    }
  }

  // -------------------------------------------------------------------------------------
  // InitBridge

  lemma InitOvs(s: State, net: Network, attached: map<string, nat>)
    requires OvsOk(s) && AttachedOk(s, net, attached)
    ensures OvsOk(InitState(s, net, attached))
  {
    hide IsContainerPort;
  }

  lemma InitKeepsVeth(s: State, net: Network, attached: map<string, nat>, e: Id)
    requires AttachedOk(s, net, attached) && Veth(e) in s.ovs && s.ovs[Veth(e)].bridge != net.bridge
    ensures var s' := InitState(s, net, attached); Veth(e) in s'.ovs && s'.ovs[Veth(e)] == s.ovs[Veth(e)]
  {
    VethNames(e, e);
    hide Veth, IsContainerPort;
    assert Veth(e) !in attached;
  }

  lemma InitKeeps(sys: Sys, id: Id, net: Network, lb: nat, attached: map<string, nat>, e: Id)
    requires NetworksOk(sys) && Legal(sys, InitBridge(id, net, lb, attached)) && e in sys.docker.eps && Plugged(sys, e)
    ensures SameRecords(sys, Next(sys, InitBridge(id, net, lb, attached), NoFault), e)
  {
    hide Veth, IsContainerPort, SameRecords;
    var n := sys.docker.eps[e].network;
    assert sys.docker.nets[n].network.bridge != net.bridge;
    assert SameNetwork(sys.state.networks[n], sys.docker.nets[n].network);
    hide NetworksOk;
    InitKeepsVeth(sys.state, net, attached, e);
    InitShape(sys, id, net, lb, attached);
    hide InitState, AttachedOk;
    KeptRecords(sys, Next(sys, InitBridge(id, net, lb, attached), NoFault), e);
  }

  /** What a new bridge carries: the ports it was given, at their numbers; every other bridge keeps its own,
      and one of that name is replaced. */
  lemma InitEffect(s: State, net: Network, attached: map<string, nat>, name: string)
    requires AttachedOk(s, net, attached)
    ensures var s' := InitState(s, net, attached);
            && s' == s.(bridges := s.bridges + {net.bridge}, ovs := s'.ovs, rules := s'.rules)
            && (name in attached ==> name in s'.ovs && s'.ovs[name] == At(net.bridge, attached[name]))
            && (name !in attached ==> (name in s'.ovs <==> name in s.ovs && s.ovs[name].bridge != net.bridge))
            && (name !in attached && name in s'.ovs ==> s'.ovs[name] == s.ovs[name])
            && s'.rules == if net.mode == Nat then [MasqueradeOut(net.cidr)] + s.rules else s.rules
  {
  }

  lemma InitAgrees(sys: Sys, id: Id, net: Network, lb: nat, attached: map<string, nat>)
    requires Agree(sys) && Legal(sys, InitBridge(id, net, lb, attached))
    ensures Agree(Next(sys, InitBridge(id, net, lb, attached), NoFault))
  {
    hide Veth;
    var sys' := Next(sys, InitBridge(id, net, lb, attached), NoFault);
    InitOvs(sys.state, net, attached);
    InitNetworks(sys, id, net, lb, attached);
    InitEndpoints(sys, id, net, lb, attached);
    InitOwners(sys, id, net, lb, attached);
  }

  lemma InitNetworks(sys: Sys, id: Id, net: Network, lb: nat, attached: map<string, nat>)
    requires NetworksOk(sys) && Legal(sys, InitBridge(id, net, lb, attached))
    ensures NetworksOk(Next(sys, InitBridge(id, net, lb, attached), NoFault))
  {
    hide AttachedOk, WithoutBridge, NetworksOk, SameNetwork;
    var sys' := Next(sys, InitBridge(id, net, lb, attached), NoFault);
    NetworkByNetwork(sys);
    ApartWith(sys.docker.nets, id, Requested(net, lb, false));
    hide NetsApart;
    InitShape(sys, id, net, lb, attached);
    hide Next;
    NetworkByNetwork(sys');
    forall n ensures NetworkOk(sys', n) {
      assert NetworkOk(sys, n);
    }
  }

  lemma InitShape(sys: Sys, id: Id, net: Network, lb: nat, attached: map<string, nat>)
    ensures var sys' := Next(sys, InitBridge(id, net, lb, attached), NoFault);
            && sys'.docker.nets == sys.docker.nets[id := Requested(net, lb, false)]
            && sys'.state.networks == sys.state.networks && sys'.state.mirrors == sys.state.mirrors
            && sys'.state.bridges == sys.state.bridges + {net.bridge}
            && sys'.docker.eps == sys.docker.eps && sys'.state.ofPorts == sys.state.ofPorts && sys'.state.faucet == sys.state.faucet
  {
  }

  lemma InitEndpoints(sys: Sys, id: Id, net: Network, lb: nat, attached: map<string, nat>)
    requires NetworksOk(sys) && EndpointsOk(sys) && Legal(sys, InitBridge(id, net, lb, attached))
    ensures EndpointsOk(Next(sys, InitBridge(id, net, lb, attached), NoFault))
  {
    hide Veth, NetworksOk, AttachedOk;
    var sys' := Next(sys, InitBridge(id, net, lb, attached), NoFault);
    forall e | e in sys.docker.eps ensures SameRecords(sys, sys', e) {
      assert EndpointOk(sys, e);
      InitKeeps(sys, id, net, lb, attached, e);
    }
    EndpointsFrame(sys, sys');
  }

  lemma InitOwners(sys: Sys, id: Id, net: Network, lb: nat, attached: map<string, nat>)
    requires OwnersOk(sys) && Legal(sys, InitBridge(id, net, lb, attached))
    ensures OwnersOk(Next(sys, InitBridge(id, net, lb, attached), NoFault))
  {
    hide Veth, IsContainerPort;
    var sys' := Next(sys, InitBridge(id, net, lb, attached), NoFault);
    assert forall dp :: Table(sys'.state, dp) == Table(sys.state, dp);
    assert NothingNew(sys.state, sys'.state);
    OwnersFrame(sys, sys');
  }

  // -------------------------------------------------------------------------------------
  // Reconciliation

  /** A pass over a network leaves the interface of every live container port alone, even if
      the cached scrape had something else at that number. */
  lemma ReconcileSparesEndpoint(sys: Sys, id: Id, scrape: Option<R.PortDesc>, e: Id)
    requires NetworksOk(sys) && Legal(sys, Reconcile(id, scrape)) && e in sys.docker.eps && EndpointOk(sys, e)
    ensures var s, s' := sys.state, ReconcileState(sys.state, id, scrape);
            var name, p := s.networks[sys.docker.eps[e].network].name, s.ofPorts[e].port;
            && (p in Table(s', name) <==> p in Table(s, name))
            && (p in Table(s, name) ==> Table(s', name)[p] == Table(s, name)[p])
  {
    var s, n, p := sys.state, sys.docker.eps[e].network, sys.state.ofPorts[e].port;
    if id in s.networks {
      if n != id {
        NamesDiffer(sys, id, n);
        hide NetworksOk, R.Pass;
      } else if scrape.Some? {
        VethNames(e, e);
        assert p in scrape.value && IsContainerPort(scrape.value[p]);
        hide NetworksOk, IsScrape, Veth, IsContainerPort;
        R.PassSparesContainers(SettingsOf(s, id), ViewOf(s, id), scrape.value, p);
        hide R.Pass;
      }
    }
  }

  lemma ReconcileAgrees(sys: Sys, id: Id, scrape: Option<R.PortDesc>)
    requires Agree(sys) && Legal(sys, Reconcile(id, scrape))
    ensures Agree(Next(sys, Reconcile(id, scrape), NoFault))
  {
    hide Veth, IsContainerPort, NetworksOk, EndpointsOk, OwnersOk, OvsOk, IsScrape;
    var s, sys' := sys.state, Next(sys, Reconcile(id, scrape), NoFault);
    if id in s.networks {
      ReconcileRest(sys, id, scrape);
      ReconcileEndpoints(sys, id, scrape);
      ReconcileOwners(sys, id, scrape);
    }
  }

  lemma ReconcileRest(sys: Sys, id: Id, scrape: Option<R.PortDesc>)
    requires OvsOk(sys.state) && NetworksOk(sys) && id in sys.state.networks
    ensures var sys' := Next(sys, Reconcile(id, scrape), NoFault); OvsOk(sys'.state) && NetworksOk(sys')
  {
    hide ReconcileState, NetworksOk, Table;
    ReconcileShape(sys.state, id, scrape);
    NetworksFrame(sys, Next(sys, Reconcile(id, scrape), NoFault));
  }

  lemma ReconcileShape(s: State, id: Id, scrape: Option<R.PortDesc>)
    requires id in s.networks
    ensures var s' := ReconcileState(s, id, scrape);
            && s' == s.(networks := s'.networks, faucet := s'.faucet, cache := s'.cache)
            && s'.networks.Keys == s.networks.Keys
            && (forall n :: n in s.networks ==> s'.networks[n] == s.networks[n].(externals := s'.networks[n].externals))
            && (forall dp :: dp != s.networks[id].name ==> Table(s', dp) == Table(s, dp))
            && (forall dp, p :: p in Table(s', dp) && Table(s', dp)[p].Container? ==>
                  p in Table(s, dp) && Table(s', dp)[p] == Table(s, dp)[p])
  {
    var s', name := ReconcileState(s, id, scrape), s.networks[id].name;
    forall p | p in Table(s', name) && Table(s', name)[p].Container? ensures p in Table(s, name) && Table(s', name)[p] == Table(s, name)[p] {
      R.PassAddsNoContainer(SettingsOf(s, id), ViewOf(s, id), scrape, p);
    }
  }

  lemma ReconcileEndpoints(sys: Sys, id: Id, scrape: Option<R.PortDesc>)
    requires NetworksOk(sys) && EndpointsOk(sys) && Legal(sys, Reconcile(id, scrape)) && id in sys.state.networks
    ensures EndpointsOk(Next(sys, Reconcile(id, scrape), NoFault))
  {
    hide Veth, IsContainerPort, NetworksOk, ReconcileState, IsScrape;
    var sys' := Next(sys, Reconcile(id, scrape), NoFault);
    ReconcileShape(sys.state, id, scrape);
    forall e | e in sys.docker.eps ensures SameRecords(sys, sys', e) {
      assert EndpointOk(sys, e);
      ReconcileSparesEndpoint(sys, id, scrape, e);
    }
    EndpointsFrame(sys, sys');
  }

  lemma ReconcileOwners(sys: Sys, id: Id, scrape: Option<R.PortDesc>)
    requires OwnersOk(sys) && id in sys.state.networks
    ensures OwnersOk(Next(sys, Reconcile(id, scrape), NoFault))
  {
    hide Veth, IsContainerPort, ReconcileState;
    var sys' := Next(sys, Reconcile(id, scrape), NoFault);
    ReconcileShape(sys.state, id, scrape);
    assert NothingNew(sys.state, sys'.state);
    OwnersFrame(sys, sys');
  }

  // -------------------------------------------------------------------------------------
  // DHCP updates and the administrator's ports

  lemma DhcpAgrees(sys: Sys, id: Id, e: Id, hostIP: string)
    requires Agree(sys)
    ensures Agree(Next(sys, DhcpUpdate(id, e, hostIP), NoFault))
  {
    hide Veth, IsContainerPort, NetworksOk, EndpointsOk, OwnersOk, OvsOk, DhcpState;
    var sys' := Next(sys, DhcpUpdate(id, e, hostIP), NoFault);
    DhcpRest(sys, id, e, hostIP);
    DhcpEndpoints(sys, sys', id, e, hostIP);
    DhcpOwners(sys, id, e, hostIP);
  }

  ghost predicate SameContainers(a: Network, b: Network) {
    a.containers.Keys == b.containers.Keys && forall x :: x in a.containers ==> a.containers[x].port == b.containers[x].port
  }

  lemma DhcpNetwork(net: Network, e: Id, hostIP: string)
    requires e in net.containers
    ensures var net' := net.(containers := net.containers[e := net.containers[e].(hostIP := hostIP)]);
            SameNetwork(net', net) && SameContainers(net', net)
  {
  }

  lemma DhcpShape(s: State, id: Id, e: Id, hostIP: string)
    ensures var s' := DhcpState(s, id, e, hostIP);
            && s' == s.(networks := s'.networks) && s'.networks.Keys == s.networks.Keys
            && (forall n :: n in s.networks ==> SameNetwork(s'.networks[n], s.networks[n]) && SameContainers(s'.networks[n], s.networks[n]))
  {
    if id in s.networks && e in s.networks[id].containers {
      DhcpNetwork(s.networks[id], e, hostIP);
      hide SameContainers, SameNetwork;
      forall n | n in s.networks ensures SameNetwork(s.networks[n], s.networks[n]) && SameContainers(s.networks[n], s.networks[n]) {
        Unchanged(s.networks[n]);
      }
    }
  }

  lemma Unchanged(net: Network)
    ensures SameNetwork(net, net) && SameContainers(net, net)
  {
  }

  lemma DhcpRest(sys: Sys, id: Id, e: Id, hostIP: string)
    requires OvsOk(sys.state) && NetworksOk(sys)
    ensures var sys' := Next(sys, DhcpUpdate(id, e, hostIP), NoFault); OvsOk(sys'.state) && NetworksOk(sys')
  {
    DhcpShape(sys.state, id, e, hostIP);
    hide DhcpState, NetworksOk, Table, SameNetwork, SameContainers;
    NetworksFrame(sys, Next(sys, DhcpUpdate(id, e, hostIP), NoFault));
  }

  lemma DhcpOwners(sys: Sys, id: Id, e: Id, hostIP: string)
    requires OwnersOk(sys)
    ensures OwnersOk(Next(sys, DhcpUpdate(id, e, hostIP), NoFault))
  {
    hide Veth, IsContainerPort, OwnersOk;
    var sys' := Next(sys, DhcpUpdate(id, e, hostIP), NoFault);
    DhcpShape(sys.state, id, e, hostIP);
    assert forall dp :: Table(sys'.state, dp) == Table(sys.state, dp);
    hide DhcpState, Table, SameNetwork;
    OwnersFrame(sys, sys');
  }

  lemma DhcpEndpoints(sys: Sys, sys': Sys, id: Id, e: Id, hostIP: string)
    requires EndpointsOk(sys) && sys' == Next(sys, DhcpUpdate(id, e, hostIP), NoFault)
    ensures EndpointsOk(sys')
  {
    hide Veth;
    DhcpShape(sys.state, id, e, hostIP);
    assert forall dp :: Table(sys'.state, dp) == Table(sys.state, dp);
    hide DhcpState, Table, SameNetwork;
    forall e' | e' in sys.docker.eps ensures SameRecords(sys, sys', e') {
      assert EndpointOk(sys, e');
    }
    EndpointsFrame(sys, sys');
  }

  lemma PlugAgrees(sys: Sys, name: string, b: string, p: nat)
    requires Agree(sys) && Legal(sys, Plug(name, b, p))
    ensures Agree(Next(sys, Plug(name, b, p), NoFault))
  {
    hide IsContainerPort, NetworksOk, EndpointsOk, OwnersOk;
    var sys' := Next(sys, Plug(name, b, p), NoFault);
    ReserveOvs(sys.state, b, p, name);
    NetworksFrame(sys, sys');
    HostPortEndpoints(sys, sys', name);
    assert forall dp :: Table(sys'.state, dp) == Table(sys.state, dp);
    OwnersFrame(sys, sys');
  }

  /** Changing where an interface that is not a container's is plugged in disturbs no endpoint. */
  lemma HostPortEndpoints(sys: Sys, sys': Sys, name: string)
    requires EndpointsOk(sys) && !IsContainerPort(name)
    requires sys' == sys.(state := sys.state.(ovs := sys'.state.ovs))
    requires forall x :: x != name ==> (x in sys'.state.ovs <==> x in sys.state.ovs)
    requires forall x :: x != name && x in sys.state.ovs ==> sys'.state.ovs[x] == sys.state.ovs[x]
    ensures EndpointsOk(sys')
  {
    forall e | e in sys.docker.eps ensures Veth(e) != name {
      VethNames(e, e);
    }
    hide Veth, IsContainerPort;
    forall e | e in sys.docker.eps ensures SameRecords(sys, sys', e) {
      assert EndpointOk(sys, e);
    }
    EndpointsFrame(sys, sys');
  }

  lemma UnplugAgrees(sys: Sys, name: string)
    requires Agree(sys) && Legal(sys, Unplug(name))
    ensures Agree(Next(sys, Unplug(name), NoFault))
  {
    hide IsContainerPort, NetworksOk, EndpointsOk, OwnersOk;
    var sys' := Next(sys, Unplug(name), NoFault);
    NetworksFrame(sys, sys');
    HostPortEndpoints(sys, sys', name);
    assert forall dp :: Table(sys'.state, dp) == Table(sys.state, dp);
    OwnersFrame(sys, sys');
  }
}
