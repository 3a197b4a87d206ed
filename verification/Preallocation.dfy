/** The preallocation window over whole runs of the system, faults included. */
module Preallocation {
  import opened Types
  import opened Ports
  import opened World
  import opened Handlers
  import opened Faults
  import Labels
  import C = Creation
  import F = FaultyRuns
  import N = NetworkAgreement

  /** Numbers on a bridge that carry a container, and numbers that carry something else. */
  ghost function ContainerPorts(s: State, bridge: string): set<nat> {
    set name | name in s.ovs && s.ovs[name].bridge == bridge && IsContainerPort(name) :: s.ovs[name].port
  }

  ghost function HostPorts(s: State, bridge: string): set<nat> {
    set name | name in s.ovs && s.ovs[name].bridge == bridge && !IsContainerPort(name) :: s.ovs[name].port
  }

  /** Where a window can be: on a bridge without containers it starts at the first free port and
      nowhere else, and it fits exactly if no host port lies in it. */
  lemma WindowStartsAtScan(s: State, bridge: string, f: nat, n: nat)
    requires OvsOk(s) && ContainerPorts(s, bridge) == {} && n >= 1
    ensures WindowFits(HostPorts(s, bridge), f, n) <==>
            f == Scan(UsedPorts(s.ovs, bridge)) && HostPorts(s, bridge) !! Window(f, n)
  {
    var used, host := UsedPorts(s.ovs, bridge), HostPorts(s, bridge);
    assert used == host + ContainerPorts(s, bridge);
    assert used == host && 0 !in host;
    assert IsLeastFree(host, Scan(host));
    if WindowFits(host, f, n) {
      assert f !in host;
      assert IsLeastFree(host, f);
      LeastFreeUnique(host, f, Scan(host));
      assert forall p :: p in Window(f, n) ==> InSpan(p, f, n);
    }
    if f == Scan(host) && host !! Window(f, n) {
      forall i | f <= i < f + n ensures i !in host {
        assert InSpan(i, f, n);
        assert i in Window(f, n);
      }
    }
  }

  /** Creation configures the window it scans for: every number in it that neither the gateway nor
      a link has carries the network's VLAN and default ACL. */
  lemma WindowConfigured(s: State, id: Id, net: Network, lb: nat, physical: seq<string>, copro: seq<string>, p: nat)
    requires net.externals == map[] && forall x :: x in physical + copro + LinkEnds(s.links, net) ==> x in s.ovs
    requires p in Window(Scan(UsedPorts(s.ovs, net.bridge)), net.preallocate)
    requires !(net.mode != Flat && p == OF_PORT_LOCAL) && !C.LinkTakes(s.ovs, s.links, net, lb, p)
    ensures var t := Table(Exec(s, CreateScript(s, id, net, lb, physical, copro), NoFault).state, net.name);
            p in t && t[p] == Preallocated(net.vlan, Labels.ForNetwork(net.defaultAcl, net.name))
  {
    hide Exec, CreateScript, CreateIfaces, Window, LinkEnds, LinkIface, Labels.ForNetwork;
    C.CreateTheorem(s, id, net, lb, physical, copro);
    C.SpecialConfigured(s.ovs, s.links, net, lb, physical, copro, p);
  }

  /** A reserve lands in the window exactly when fewer containers than its size are live. */
  lemma ReserveInWindowIff(s: State, bridge: string, f: nat, n: nat)
    requires WindowFits(HostPorts(s, bridge), f, n) && ContainerPorts(s, bridge) <= Window(f, n)
    ensures Scan(UsedPorts(s.ovs, bridge)) in Window(f, n) <==> |ContainerPorts(s, bridge)| < n
  {
    assert UsedPorts(s.ovs, bridge) == HostPorts(s, bridge) + ContainerPorts(s, bridge);
    NextPortInWindowIff(HostPorts(s, bridge), ContainerPorts(s, bridge), f, n);
  }

  /** A reserve that goes through on this bridge although n containers are plugged in already. */
  ghost predicate Overfills(sys: Sys, op: Op, luck: Luck, bridge: string, n: nat) {
    var s := sys.state;
    && op.ReservePort? && op.id in s.networks && s.networks[op.id].bridge == bridge
    && Exec(s, ReserveScript(s, op.id, op.endpoint), luck).completed && |ContainerPorts(s, bridge)| >= n
  }

  /** The host's own ports keep clear of the window and fill everything below it. */
  ghost predicate HostsKeepClear(sys: Sys, events: seq<Event>, bridge: string, f: nat, n: nat)
    decreases |events|
  {
    events != [] ==>
      && WindowFits(HostPorts(sys.state, bridge), f, n)
      && HostsKeepClear(Next(sys, events[0].op, events[0].luck), events[1..], bridge, f, n)
  }

  lemma FewerPorts(s: State, s': State, bridge: string)
    requires forall name :: name in s'.ovs && IsContainerPort(name) ==> name in s.ovs && s'.ovs[name] == s.ovs[name]
    ensures ContainerPorts(s', bridge) <= ContainerPorts(s, bridge)
  {
  }

  /** One operation keeps every container of the bridge in the window exactly unless it overfills it. */
  lemma StepInWindowIff(sys: Sys, op: Op, luck: Luck, bridge: string, f: nat, n: nat)
    requires Survives(sys) && Legal(sys, op) && WindowFits(HostPorts(sys.state, bridge), f, n)
    requires ContainerPorts(sys.state, bridge) <= Window(f, n)
    ensures ContainerPorts(Next(sys, op, luck).state, bridge) <= Window(f, n) <==> !Overfills(sys, op, luck, bridge, n)
  {
    hide LiveNumbers, ContainersMatch, MirrorsKnown, Exec, Perform;
    var s, s' := sys.state, Next(sys, op, luck).state;
    SupportedOvs(sys);
    if op.ReservePort? {
      ReserveInWindow(s, op.id, op.endpoint, luck, bridge, f, n);
    } else {
      NoNewContainerPorts(sys, op, luck);
      FewerPorts(s, s', bridge);
    }
  }

  lemma ReserveInWindow(s: State, id: Id, e: Id, luck: Luck, bridge: string, f: nat, n: nat)
    requires WindowFits(HostPorts(s, bridge), f, n) && ContainerPorts(s, bridge) <= Window(f, n)
    ensures var r := Exec(s, ReserveScript(s, id, e), luck);
            ContainerPorts(r.state, bridge) <= Window(f, n) <==>
            !(id in s.networks && s.networks[id].bridge == bridge && r.completed && |ContainerPorts(s, bridge)| >= n)
  {
    hide Exec, ReserveScript, Window, WindowFits, Scan;
    var r := Exec(s, ReserveScript(s, id, e), luck);
    ReserveOutcomes(s, id, e, luck);
    if r.completed {
      ReservedPorts(s, r.state, id, e, bridge);
      if s.networks[id].bridge == bridge {
        ReserveInWindowIff(s, bridge, f, n);
      }
      hide ContainerPorts;
    }
  }

  /** A reserve adds its number to its own bridge's containers. */
  lemma ReservedPorts(s: State, s': State, id: Id, e: Id, bridge: string)
    requires id in s.networks && Veth(e) !in s.ovs
    requires var p := Scan(UsedPorts(s.ovs, s.networks[id].bridge));
             s' == s.(ovs := s.ovs[Veth(e) := At(s.networks[id].bridge, p)], ofPorts := s.ofPorts[e := Reservation(p, None)])
    ensures ContainerPorts(s', bridge) == ContainerPorts(s, bridge)
              + if s.networks[id].bridge == bridge then {Scan(UsedPorts(s.ovs, bridge))} else {}
  {
    VethNames(e, e);
    hide Veth, IsContainerPort, Scan;
    var p := Scan(UsedPorts(s.ovs, s.networks[id].bridge));
    assert s'.ovs[Veth(e)] == At(s.networks[id].bridge, p);
    forall q ensures q in ContainerPorts(s, bridge) ==> q in ContainerPorts(s', bridge) {
      if q in ContainerPorts(s, bridge) {
        var name :| name in s.ovs && s.ovs[name].bridge == bridge && IsContainerPort(name) && s.ovs[name].port == q;
        assert name in s'.ovs && s'.ovs[name] == s.ovs[name];
      }
    }
    forall q | q in ContainerPorts(s', bridge) && !(s.networks[id].bridge == bridge && q == p) ensures q in ContainerPorts(s, bridge) {
      var name :| name in s'.ovs && s'.ovs[name].bridge == bridge && IsContainerPort(name) && s'.ovs[name].port == q;
      assert name in s.ovs && s.ovs[name] == s'.ovs[name];
    }
  }

  /** Only a reserve plugs in a container port. */
  lemma NoNewContainerPorts(sys: Sys, op: Op, luck: Luck)
    requires MirrorsKnown(sys.state) && Supported(sys) && OvsOk(sys.state) && Legal(sys, op) && !op.ReservePort?
    ensures var s, s' := sys.state, Next(sys, op, luck).state;
            forall name :: name in s'.ovs && IsContainerPort(name) ==> name in s.ovs && s'.ovs[name] == s.ovs[name]
  {
    hide Exec, Perform, IsContainerPort, Supported;
    var s := sys.state;
    match op
    case InitBridge(id, net, lb, attached) => F.InitIsCalm(s, net, attached, luck);
    case CreateNetwork(id, physical, copro) => CreateOvs(sys, id, physical, copro, luck);
    case DeleteNetwork(id) => DeleteOvs(s, id, luck);
    case JoinContainer(id, e, j) => JoinOvs(s, id, e, j, luck);
    case LeaveContainer(id, e) => LeaveOvs(s, id, e, luck);
    case Reconcile(id, scrape) => F.ReconcileIsCalm(s, id, scrape);
    case DhcpUpdate(id, e, hostIP) => F.DhcpIsCalm(s, id, e, hostIP);
    case Plug(name, b, p) => F.PlugIsCalm(s, name, b, p);
    case Unplug(name) => F.UnplugIsCalm(s, name);
  }

  lemma CreateOvs(sys: Sys, id: Id, physical: seq<string>, copro: seq<string>, luck: Luck)
    requires id in sys.docker.nets
    ensures Next(sys, CreateNetwork(id, physical, copro), luck).state.ovs == sys.state.ovs
  {
    hide Exec, CreateScript;
    var net, lb := sys.docker.nets[id].network, sys.docker.nets[id].lbPort;
    N.CreateResult(sys.state, id, net, lb, physical, copro, luck);
  }

  lemma DeleteOvs(s: State, id: Id, luck: Luck)
    ensures var s' := Exec(s, DeleteScript(s, id), luck).state;
            forall name :: name in s'.ovs ==> name in s.ovs && s'.ovs[name] == s.ovs[name]
  {
    F.DeleteOutcomes(s, id, luck);
    hide Exec, DeleteScript;
  }

  lemma JoinOvs(s: State, id: Id, e: Id, j: Joined, luck: Luck)
    ensures Exec(s, JoinScript(s, id, e, j), luck).state.ovs == s.ovs
  {
    JoinOutcomes(s, id, e, j, luck);
    hide Exec, JoinScript;
  }

  lemma LeaveOvs(s: State, id: Id, e: Id, luck: Luck)
    ensures var s' := Exec(s, LeaveScript(s, id, e), luck).state;
            forall name :: name in s'.ovs ==> name in s.ovs && s'.ovs[name] == s.ovs[name]
  {
    LeaveOutcomes(s, id, e, luck);
    hide Exec, LeaveScript, Veth;
  }

  /** Every container of the bridge is in the window now and after every event to come. */
  ghost predicate AlwaysInWindow(sys: Sys, events: seq<Event>, bridge: string, f: nat, n: nat)
    decreases |events|
  {
    && ContainerPorts(sys.state, bridge) <= Window(f, n)
    && (events != [] ==> AlwaysInWindow(Next(sys, events[0].op, events[0].luck), events[1..], bridge, f, n))
  }

  ghost predicate NeverOverfills(sys: Sys, events: seq<Event>, bridge: string, n: nat)
    decreases |events|
  {
    events != [] ==>
      && !Overfills(sys, events[0].op, events[0].luck, bridge, n)
      && NeverOverfills(Next(sys, events[0].op, events[0].luck), events[1..], bridge, n)
  }

  /** Over every run, whatever else happens on the bridge and whichever commands fail, as long as the
      host's own ports keep clear of the window: every container is plugged in at a preallocated
      number after every event exactly if no reserve goes through with n containers plugged in. */
  lemma {:induction false} PreallocationTheorem(sys: Sys, events: seq<Event>, bridge: string, f: nat, n: nat)
    requires Survives(sys) && LegalRun(sys, events) && HostsKeepClear(sys, events, bridge, f, n)
    requires ContainerPorts(sys.state, bridge) <= Window(f, n)
    ensures AlwaysInWindow(sys, events, bridge, f, n) <==> NeverOverfills(sys, events, bridge, n)
    ensures AlwaysInWindow(sys, events, bridge, f, n) ==> ContainerPorts(Run(sys, events).state, bridge) <= Window(f, n)
    decreases |events|
  {
    hide Survives, Legal, Next, Overfills, ContainerPorts, Window, WindowFits;
    if events != [] {
      var sys' := Next(sys, events[0].op, events[0].luck);
      StepInWindowIff(sys, events[0].op, events[0].luck, bridge, f, n);
      F.StepSurvives(sys, events[0].op, events[0].luck);
      if ContainerPorts(sys'.state, bridge) <= Window(f, n) {
        PreallocationTheorem(sys', events[1..], bridge, f, n);
      }
    }
  }

  /** From the creation of a network on: with the window that creation scanned for, every container
      ever plugged into its bridge is at a preallocated number, exactly if none is reserved in excess. */
  lemma PreallocatedFromCreation(sys: Sys, events: seq<Event>)
    requires Survives(sys) && LegalRun(sys, events) && events != [] && events[0].op.CreateNetwork?
    requires var net := sys.docker.nets[events[0].op.id].network;
             var f := Scan(UsedPorts(sys.state.ovs, net.bridge));
             && net.preallocate >= 1 && ContainerPorts(sys.state, net.bridge) == {}
             && HostPorts(sys.state, net.bridge) !! Window(f, net.preallocate)
             && HostsKeepClear(Next(sys, events[0].op, events[0].luck), events[1..], net.bridge, f, net.preallocate)
    ensures var net := sys.docker.nets[events[0].op.id].network;
            var f := Scan(UsedPorts(sys.state.ovs, net.bridge));
            && (AlwaysInWindow(sys, events, net.bridge, f, net.preallocate) <==> NeverOverfills(sys, events, net.bridge, net.preallocate))
            && (NeverOverfills(sys, events, net.bridge, net.preallocate) ==>
                  ContainerPorts(Run(sys, events).state, net.bridge) <= Window(f, net.preallocate))
  {
    var net := sys.docker.nets[events[0].op.id].network;
    var f := Scan(UsedPorts(sys.state.ovs, net.bridge));
    SupportedOvs(sys);
    WindowStartsAtScan(sys.state, net.bridge, f, net.preallocate);
    hide Survives, Legal, Next, ContainerPorts, HostPorts, Window, WindowFits;
    PreallocationTheorem(sys, events, net.bridge, f, net.preallocate);
  }

  // -------------------------------------------------------------------------------------
  // The order of the numbers

  /** The containers of the bridge fill the window from the left with no gap. */
  ghost predicate Packed(s: State, bridge: string, f: nat) {
    ContainerPorts(s, bridge) == Window(f, |ContainerPorts(s, bridge)|)
  }

  /** Then the next number is the one after them. */
  lemma NextInOrder(s: State, bridge: string, f: nat, n: nat)
    requires WindowFits(HostPorts(s, bridge), f, n) && Packed(s, bridge, f) && |ContainerPorts(s, bridge)| < n
    ensures Scan(UsedPorts(s.ovs, bridge)) == f + |ContainerPorts(s, bridge)|
  {
    var host, live, used := HostPorts(s, bridge), ContainerPorts(s, bridge), UsedPorts(s.ovs, bridge);
    var k := |live|;
    assert used == host + live;
    assert 0 !in used && f + k !in host && f + k !in live;
    forall i | 1 <= i < f + k ensures i in used {
      assert i >= f ==> InSpan(i, f, k);
    }
    assert IsLeastFree(used, f + k);
    LeastFreeUnique(used, f + k, Scan(used));
  }

  /** Only a leave takes some containers of a bridge and not others. */
  lemma SameOrNone(sys: Sys, op: Op, luck: Luck, bridge: string)
    requires Survives(sys) && Legal(sys, op) && !op.ReservePort? && !op.LeaveContainer?
    ensures var s' := Next(sys, op, luck).state;
            ContainerPorts(s', bridge) == ContainerPorts(sys.state, bridge) || ContainerPorts(s', bridge) == {}
  {
    hide Exec, Perform, IsContainerPort, Survives;
    var s, s' := sys.state, Next(sys, op, luck).state;
    match op
    case InitBridge(id, net, lb, attached) => InitPorts(s, net, attached, luck, bridge);
    case CreateNetwork(id, physical, copro) => CreateOvs(sys, id, physical, copro, luck); SameOvsPorts(s, s', bridge);
    case DeleteNetwork(id) => DeletePorts(s, id, luck, bridge);
    case JoinContainer(id, e, j) => JoinOvs(s, id, e, j, luck); SameOvsPorts(s, s', bridge);
    case Reconcile(id, scrape) => ReconcileOvs(s, id, scrape); SameOvsPorts(s, s', bridge);
    case DhcpUpdate(id, e, hostIP) => SameOvsPorts(s, s', bridge);
    case Plug(name, b, p) => HostPortsOnly(s, s', name, bridge);
    case Unplug(name) => HostPortsOnly(s, s', name, bridge);
  }

  lemma SameOvsPorts(s: State, s': State, bridge: string)
    requires s'.ovs == s.ovs
    ensures ContainerPorts(s', bridge) == ContainerPorts(s, bridge)
  {
  }

  lemma HostPortsOnly(s: State, s': State, name: string, bridge: string)
    requires !IsContainerPort(name) && forall x :: x != name ==> (x in s'.ovs <==> x in s.ovs)
    requires forall x :: x != name && x in s.ovs ==> s'.ovs[x] == s.ovs[x]
    ensures ContainerPorts(s', bridge) == ContainerPorts(s, bridge)
  {
    hide IsContainerPort;
    forall q ensures q in ContainerPorts(s', bridge) <==> q in ContainerPorts(s, bridge) {
      if q in ContainerPorts(s, bridge) {
        var x :| x in s.ovs && s.ovs[x].bridge == bridge && IsContainerPort(x) && s.ovs[x].port == q;
        assert x in s'.ovs;
      }
      if q in ContainerPorts(s', bridge) {
        var x :| x in s'.ovs && s'.ovs[x].bridge == bridge && IsContainerPort(x) && s'.ovs[x].port == q;
        assert x in s.ovs;
      }
    }
  }

  /** Taking a bridge away, and putting host ports on it. */
  lemma ReplacedPorts(s: State, s': State, b: string, bridge: string)
    requires forall x :: x in s'.ovs && IsContainerPort(x) <==> x in s.ovs && IsContainerPort(x) && s.ovs[x].bridge != b
    requires forall x :: x in s'.ovs && IsContainerPort(x) ==> s'.ovs[x] == s.ovs[x]
    ensures ContainerPorts(s', bridge) == if b == bridge then {} else ContainerPorts(s, bridge)
  {
    hide IsContainerPort;
    if b != bridge {
      forall q | q in ContainerPorts(s, bridge) ensures q in ContainerPorts(s', bridge) {
        var x :| x in s.ovs && s.ovs[x].bridge == bridge && IsContainerPort(x) && s.ovs[x].port == q;
        assert x in s'.ovs;
      }
    }
  }

  lemma InitPorts(s: State, net: Network, attached: map<string, nat>, luck: Luck, bridge: string)
    requires AttachedOk(s, net, attached)
    ensures var s' := InitOutcome(s, net, attached, luck);
            ContainerPorts(s', bridge) == ContainerPorts(s, bridge) || ContainerPorts(s', bridge) == {}
  {
    hide IsContainerPort, ContainerPorts;
    var s' := InitOutcome(s, net, attached, luck);
    if luck != FaultAfter(0) {
      assert s'.ovs == InitState(s, net, attached).ovs;
      BuiltPorts(s, net, attached);
    }
    hide InitState, AttachedOk;
    ReplacedPorts(s, s', net.bridge, bridge);
  }

  lemma BuiltPorts(s: State, net: Network, attached: map<string, nat>)
    requires forall x :: x in attached ==> !IsContainerPort(x)
    ensures var ovs' := InitState(s, net, attached).ovs;
            && (forall x :: x in ovs' && IsContainerPort(x) <==> x in s.ovs && IsContainerPort(x) && s.ovs[x].bridge != net.bridge)
            && (forall x :: x in ovs' && IsContainerPort(x) ==> ovs'[x] == s.ovs[x])
  {
    hide IsContainerPort;
  }

  lemma DeletePorts(s: State, id: Id, luck: Luck, bridge: string)
    ensures var s' := Exec(s, DeleteScript(s, id), luck).state;
            ContainerPorts(s', bridge) == ContainerPorts(s, bridge) || ContainerPorts(s', bridge) == {}
  {
    hide Exec, DeleteScript, IsContainerPort, ContainerPorts;
    var s' := Exec(s, DeleteScript(s, id), luck).state;
    F.DeleteOutcomes(s, id, luck);
    if s'.ovs == s.ovs {
      SameOvsPorts(s, s', bridge);
    } else {
      ReplacedPorts(s, s', s.networks[id].bridge, bridge);
    }
  }

  lemma ReconcileOvs(s: State, id: Id, scrape: Option<map<nat, string>>)
    ensures ReconcileState(s, id, scrape).ovs == s.ovs
  {
    if id in s.networks {
      N.ReconcileShape(s, id, scrape);
    }
  }

  /** No container leaves. */
  ghost predicate NoLeaves(events: seq<Event>) {
    forall i :: 0 <= i < |events| ==> !events[i].op.LeaveContainer?
  }

  lemma StepPacked(sys: Sys, op: Op, luck: Luck, bridge: string, f: nat, n: nat)
    requires Survives(sys) && Legal(sys, op) && !op.LeaveContainer? && !Overfills(sys, op, luck, bridge, n)
    requires WindowFits(HostPorts(sys.state, bridge), f, n) && Packed(sys.state, bridge, f)
    ensures Packed(Next(sys, op, luck).state, bridge, f)
  {
    if op.ReservePort? {
      ReservePacked(sys.state, op.id, op.endpoint, luck, bridge, f, n);
    } else {
      SameOrNone(sys, op, luck, bridge);
      assert Window(f, 0) == {};
      hide ContainerPorts, Next;
    }
  }

  lemma ReservePacked(s: State, id: Id, e: Id, luck: Luck, bridge: string, f: nat, n: nat)
    requires WindowFits(HostPorts(s, bridge), f, n) && Packed(s, bridge, f)
    requires id in s.networks && s.networks[id].bridge == bridge && Exec(s, ReserveScript(s, id, e), luck).completed ==>
               |ContainerPorts(s, bridge)| < n
    ensures Packed(Exec(s, ReserveScript(s, id, e), luck).state, bridge, f)
  {
    hide Exec, ReserveScript, ContainerPorts, HostPorts, Scan, UsedPorts, WindowFits, Packed, Veth;
    var r := Exec(s, ReserveScript(s, id, e), luck);
    ReserveOutcomes(s, id, e, luck);
    if r.completed {
      ReservedPorts(s, r.state, id, e, bridge);
      if s.networks[id].bridge == bridge {
        NextInOrder(s, bridge, f, n);
      }
      PackedWith(s, r.state, bridge, f, s.networks[id].bridge == bridge);
    }
  }

  lemma PackedWith(s: State, s': State, bridge: string, f: nat, more: bool)
    requires Packed(s, bridge, f)
    requires ContainerPorts(s', bridge) == ContainerPorts(s, bridge) + if more then {f + |ContainerPorts(s, bridge)|} else {}
    ensures Packed(s', bridge, f)
  {
    hide ContainerPorts;
    OneMore(f, |ContainerPorts(s, bridge)|);
  }

  lemma OneMore(f: nat, k: nat)
    ensures Window(f, k) + {f + k} == Window(f, k + 1) && |Window(f, k + 1)| == k + 1
  {
    WindowSize(f, k + 1);
    assert Window(f, k + 1) == Window(f, k) + {f + k};
  }

  /** Over every run without leaves, whatever else happens and fails: the containers of the bridge
      fill the window from the left, so the numbers handed out are f, f + 1, f + 2, ... */
  lemma {:induction false} InOrderTheorem(sys: Sys, events: seq<Event>, bridge: string, f: nat, n: nat)
    requires Survives(sys) && LegalRun(sys, events) && NoLeaves(events)
    requires HostsKeepClear(sys, events, bridge, f, n) && NeverOverfills(sys, events, bridge, n) && Packed(sys.state, bridge, f)
    ensures Packed(Run(sys, events).state, bridge, f)
    decreases |events|
  {
    hide Survives, Legal, Next, Overfills, Packed, WindowFits;
    if events != [] {
      StepPacked(sys, events[0].op, events[0].luck, bridge, f, n);
      F.StepSurvives(sys, events[0].op, events[0].luck);
      InOrderTheorem(Next(sys, events[0].op, events[0].luck), events[1..], bridge, f, n);
    }
  }
}
