/**
 Runs that reach the failures which the theorems give exact conditions for.  Each is legal from
 every fresh start, on a network made for it with no ports of its own.
 */
module Witnesses {
  import opened Types
  import opened Ports
  import opened Rules
  import opened World
  import opened Handlers
  import Labels
  import opened Agreement
  import opened Entries
  import N = NetworkAgreement
  import K = Conservation
  import FF = FaultFree
  import L = Leftovers
  import Faults
  import FaultyRuns
  import LR = LiveRecords
  import Preallocation
  import WindowEntries
  import Refinement
  import R = Reconciler

  // -------------------------------------------------------------------------------------
  // Runs, event by event

  lemma {:induction false} Extend(sys: Sys, events: seq<Event>, ev: Event)
    requires LegalRun(sys, events) && Legal(Run(sys, events), ev.op)
    ensures LegalRun(sys, events + [ev]) && Run(sys, events + [ev]) == Next(Run(sys, events), ev.op, ev.luck)
    decreases |events|
  {
    hide Legal, Next;
    if events == [] {
      assert events + [ev] == [ev] && [ev][1..] == [];
    } else {
      assert (events + [ev])[1..] == events[1..] + [ev];
      Extend(Next(sys, events[0].op, events[0].luck), events[1..], ev);
    }
  }

  lemma ExtendInv(sys: Sys, events: seq<Event>, op: Op, base: multiset<Rule>)
    requires LegalRun(sys, events) && Legal(Run(sys, events), op) && FF.Inv(Run(sys, events), base)
    ensures var events' := events + [Event(op, NoFault)];
            && LegalRun(sys, events') && Run(sys, events') == Next(Run(sys, events), op, NoFault) && FF.Inv(Run(sys, events'), base)
  {
    hide Legal, Next, LegalRun, Run, FF.Inv;
    Extend(sys, events, Event(op, NoFault));
    FF.StepInv(Run(sys, events), op, base);
  }

  ghost predicate Plain(net: Network) {
    net.containers == map[] && net.externals == map[] && net.physical == map[] && net.copro == {}
  }

  /** Docker has this one network and these endpoints, the manager knows the network, and these ports
      are on its bridge. */
  ghost predicate Site(sys: Sys, id: Id, net: Network, lb: nat, eps: map<Id, Endpoint>, ports: map<string, nat>) {
    var s := sys.state;
    && sys.docker == Docker(map[id := Requested(net, lb, true)], eps)
    && id in s.networks && s.networks[id] == net.(externals := s.networks[id].externals, containers := s.networks[id].containers)
    && id in s.mirrors && s.mirrors[id] == lb && net.bridge in s.bridges && OnBridge(s, net.bridge, ports)
  }

  ghost predicate OnBridge(s: State, bridge: string, ports: map<string, nat>) {
    && (forall name :: name in ports ==> name in s.ovs && s.ovs[name] == At(bridge, ports[name]))
    && (forall name :: name in s.ovs && s.ovs[name].bridge == bridge ==> name in ports)
  }

  /** The rest of the state stays as it is. */
  ghost predicate RestSame(s: State, s': State) {
    s'.ofPorts == s.ofPorts && s'.cache == s.cache && s'.faucet == s.faucet
  }

  lemma UsedOn(s: State, bridge: string, ports: map<string, nat>)
    requires OnBridge(s, bridge, ports)
    ensures UsedPorts(s.ovs, bridge) == ports.Values
  {
    forall p ensures p in UsedPorts(s.ovs, bridge) <==> p in ports.Values {
      if p in ports.Values {
        var name :| name in ports && ports[name] == p;
        assert s.ovs[name] == At(bridge, p);
      }
    }
  }

  // -------------------------------------------------------------------------------------
  // Steps

  lemma CreatedSite(sys: Sys, id: Id, net: Network, lb: nat)
    requires sys.docker == Docker(map[id := Requested(net, lb, false)], map[]) && Plain(net)
    requires net.bridge in sys.state.bridges && OnBridge(sys.state, net.bridge, map[])
    ensures var sys' := Next(sys, CreateNetwork(id, [], []), NoFault);
            && Legal(sys, CreateNetwork(id, [], []))
            && Site(sys', id, net, lb, map[], map[])
            && sys'.state.ofPorts == sys.state.ofPorts && sys'.state.cache == sys.state.cache && sys'.state.ovs == sys.state.ovs
  {
    hide Exec, CreateScript;
    N.CreateResult(sys.state, id, net, lb, [], [], NoFault);
    assert Lists([], net.physical.Keys) && Lists([], net.copro);
    assert sys.docker.nets[id := sys.docker.nets[id].(created := true)] == map[id := Requested(net, lb, true)];
    CreatedRecord(sys.state, Next(sys, CreateNetwork(id, [], []), NoFault).state, id, net, lb);
    hide N.Filled, Perform;
  }

  lemma CreatedRecord(s: State, s': State, id: Id, net: Network, lb: nat)
    requires N.Filled(Perform(s, RecordNetwork(id, net, lb)), s', id, net.name)
    ensures id in s'.networks && s'.networks[id] == net.(externals := s'.networks[id].externals)
    ensures id in s'.mirrors && s'.mirrors[id] == lb && s'.bridges == s.bridges && s'.ovs == s.ovs
    ensures s'.ofPorts == s.ofPorts && s'.cache == s.cache
  {
    assert Perform(s, RecordNetwork(id, net, lb)) == s.(mirrors := s.mirrors[id := lb], networks := s.networks[id := net]);
    hide Perform, Table;
  }

  lemma InitSite(sys: Sys, id: Id, net: Network, lb: nat)
    requires Initial(sys) && Plain(net)
    ensures var sys' := Next(sys, InitBridge(id, net, lb, map[]), NoFault);
            && Legal(sys, InitBridge(id, net, lb, map[]))
            && sys'.docker == Docker(map[id := Requested(net, lb, false)], map[])
            && net.bridge in sys'.state.bridges && OnBridge(sys'.state, net.bridge, map[])
            && sys'.state.ofPorts == map[] && sys'.state.cache == map[] && sys'.state.links == sys.state.links
            && (forall name :: name in sys'.state.ovs ==> name in sys.state.ovs)
  {
    hide IsContainerPort;
  }

  /** A network of its own, from a fresh start. */
  function Setup(id: Id, net: Network, lb: nat): seq<Event> {
    [] + [Event(InitBridge(id, net, lb, map[]), NoFault)] + [Event(CreateNetwork(id, [], []), NoFault)]
  }

  lemma SetupSite(sys: Sys, id: Id, net: Network, lb: nat)
    requires Initial(sys) && Plain(net)
    ensures var events := Setup(id, net, lb);
            var last := Run(sys, events);
            && LegalRun(sys, events) && FF.Inv(last, multiset(sys.state.rules)) && Site(last, id, net, lb, map[], map[])
            && last.state.ofPorts == map[] && last.state.cache == map[]
            && (forall name :: name in last.state.ovs ==> name in sys.state.ovs)
  {
    FF.InitialInv(sys);
    InitSite(sys, id, net, lb);
    CreatedSite(Next(sys, InitBridge(id, net, lb, map[]), NoFault), id, net, lb);
    assert LegalRun(sys, []) && Run(sys, []) == sys;
    hide Legal, Next, LegalRun, Run, FF.Inv, Initial, Site;
    ExtendInv(sys, [], InitBridge(id, net, lb, map[]), multiset(sys.state.rules));
    ExtendInv(sys, [] + [Event(InitBridge(id, net, lb, map[]), NoFault)], CreateNetwork(id, [], []), multiset(sys.state.rules));
  }

  lemma PlugSite(sys: Sys, id: Id, net: Network, lb: nat, eps: map<Id, Endpoint>, ports: map<string, nat>, name: string, p: nat)
    requires Site(sys, id, net, lb, eps, ports) && name !in sys.state.ovs && !IsContainerPort(name) && p >= 1 && p !in ports.Values
    ensures var op := Plug(name, net.bridge, p);
            var sys' := Next(sys, op, NoFault);
            && Legal(sys, op) && Site(sys', id, net, lb, eps, ports[name := p]) && RestSame(sys.state, sys'.state)
            && (forall x :: x in sys'.state.ovs ==> x == name || x in sys.state.ovs)
  {
    hide IsContainerPort;
    UsedOn(sys.state, net.bridge, ports);
    hide UsedPorts;
  }

  lemma UnplugSite(sys: Sys, id: Id, net: Network, lb: nat, eps: map<Id, Endpoint>, ports: map<string, nat>, name: string)
    requires Site(sys, id, net, lb, eps, ports) && !IsContainerPort(name)
    ensures var sys' := Next(sys, Unplug(name), NoFault);
            && Legal(sys, Unplug(name)) && Site(sys', id, net, lb, eps, ports - {name}) && RestSame(sys.state, sys'.state)
            && (forall x :: x in sys'.state.ovs ==> x != name && x in sys.state.ovs)
  {
    hide IsContainerPort;
  }

  /** On a bridge with no ports an endpoint gets number 1. */
  lemma ReserveSite(sys: Sys, id: Id, net: Network, lb: nat, e: Id)
    requires Agree(sys) && Site(sys, id, net, lb, map[], map[]) && sys.state.ofPorts == map[]
    ensures var op := ReservePort(id, e);
            var sys' := Next(sys, op, NoFault);
            && Legal(sys, op) && Site(sys', id, net, lb, map[e := Endpoint(id, false)], map[Veth(e) := 1])
            && sys'.state == sys.state.(ovs := sys.state.ovs[Veth(e) := At(net.bridge, 1)], ofPorts := map[e := Reservation(1, None)])
  {
    hide Veth, Exec, ReserveScript, NetworksOk, EndpointsOk, OwnersOk, OvsOk;
    assert Legal(sys, ReservePort(id, e));
    ReserveResult(sys, id, e);
    UsedOn(sys.state, net.bridge, map[]);
    var none: map<string, nat> := map[];
    assert none.Values == {} && Scan({}) == LeastFree({}, 1) == 1;
    hide UsedPorts, Scan;
    assert sys.docker.eps[e := Endpoint(id, false)] == map[e := Endpoint(id, false)];
  }

  lemma JoinSite(sys: Sys, id: Id, net: Network, lb: nat, e: Id, j: Joined)
    requires Site(sys, id, net, lb, map[e := Endpoint(id, false)], map[Veth(e) := 1])
    requires sys.state.ofPorts == map[e := Reservation(1, None)]
    ensures var op := JoinContainer(id, e, j);
            var sys' := Next(sys, op, NoFault);
            && Legal(sys, op) && Site(sys', id, net, lb, map[e := Endpoint(id, true)], map[Veth(e) := 1])
            && sys'.state.ofPorts == map[e := Reservation(1, Some(j))] && sys'.state.cache == sys.state.cache && sys'.state.ovs == sys.state.ovs
  {
    hide Veth, Exec, JoinScript, JoinedState, OnBridge;
    JoinResult(sys.state, id, e, j);
    assert sys.docker.eps[e := Endpoint(id, true)] == map[e := Endpoint(id, true)];
    JoinedSite(sys.state, id, net, e, j);
  }

  lemma JoinedSite(s: State, id: Id, net: Network, e: Id, j: Joined)
    requires id in s.networks && s.ofPorts == map[e := Reservation(1, None)] && OnBridge(s, net.bridge, map[Veth(e) := 1])
    ensures var s' := JoinedState(s, id, e, j);
            && id in s'.networks && s'.networks[id] == s.networks[id].(containers := s'.networks[id].containers)
            && s'.mirrors == s.mirrors && s'.bridges == s.bridges && s'.ovs == s.ovs && s'.cache == s.cache
            && OnBridge(s', net.bridge, map[Veth(e) := 1]) && s'.ofPorts == map[e := Reservation(1, Some(j))]
  {
    hide Veth, JoinRules, Table;
    assert s.ofPorts[e := Reservation(1, Some(j))] == map[e := Reservation(1, Some(j))];
  }

  lemma LeaveSite(sys: Sys, id: Id, net: Network, lb: nat, e: Id, j: Joined, base: multiset<Rule>)
    requires FF.Inv(sys, base) && Site(sys, id, net, lb, map[e := Endpoint(id, true)], map[Veth(e) := 1])
    requires sys.state.ofPorts == map[e := Reservation(1, Some(j))]
    ensures var op := LeaveContainer(id, e);
            var sys' := Next(sys, op, NoFault);
            && Legal(sys, op) && Site(sys', id, net, lb, map[], map[])
            && sys'.state.ofPorts == map[] && sys'.state.cache == sys.state.cache && EntryAt(sys'.state, id, 1) == None
            && (forall x :: x in sys'.state.ovs ==> x in sys.state.ovs)
  {
    hide Veth, Exec, LeaveScript, NetworksOk, OwnersOk, OvsOk, JoinRules, LeftState, EntryAt;
    assert EndpointOk(sys, e);
    hide EndpointsOk;
    K.JoinRulesPresent(sys, id, e, base);
    hide K.Conserved;
    LeaveResult(sys.state, id, e);
    assert sys.docker.eps - {e} == map[];
    LeftSite(sys.state, id, net, e, j);
  }

  lemma LeftSite(s: State, id: Id, net: Network, e: Id, j: Joined)
    requires id in s.networks && s.networks[id].bridge == net.bridge && s.ofPorts == map[e := Reservation(1, Some(j))]
    requires OnBridge(s, net.bridge, map[Veth(e) := 1])
    ensures var s' := LeftState(s, id, e, j);
            && id in s'.networks && s'.networks[id] == s.networks[id].(containers := s'.networks[id].containers)
            && s'.mirrors == s.mirrors && s'.bridges == s.bridges && OnBridge(s', net.bridge, map[])
            && s'.ofPorts == map[] && s'.cache == s.cache && EntryAt(s', id, 1) == None
            && (forall x :: x in s'.ovs ==> x in s.ovs)
  {
    hide Veth, JoinRules, RemoveEach;
    var ports: map<string, nat> := map[Veth(e) := 1];
    assert Veth(e) in ports;
    assert s.ofPorts - {e} == map[];
  }

  lemma ReconcileSite(sys: Sys, id: Id, net: Network, lb: nat, name: string, p: nat)
    requires Site(sys, id, net, lb, map[], map[name := p])
    ensures var op := Reconcile(id, Some(map[p := name]));
            var sys' := Next(sys, op, NoFault);
            && Legal(sys, op) && Site(sys', id, net, lb, map[], map[name := p])
            && sys'.state.ofPorts == sys.state.ofPorts && sys'.state.ovs == sys.state.ovs
            && id in sys'.state.cache && sys'.state.cache[id] == map[p := name]
  {
    hide ReconcileState, OnBridge, IsScrape;
    TrueScrape(sys.state, net.bridge, name, p);
    ReconciledRecord(sys.state, id, map[p := name]);
    SameOnBridge(sys.state, ReconcileState(sys.state, id, Some(map[p := name])), net.bridge, map[name := p]);
  }

  lemma TrueScrape(s: State, bridge: string, name: string, p: nat)
    requires OnBridge(s, bridge, map[name := p])
    ensures IsScrape(s, bridge, map[p := name])
  {
    var ports: map<string, nat> := map[name := p];
    assert name in ports;
  }

  lemma SameOnBridge(s: State, s': State, bridge: string, ports: map<string, nat>)
    requires OnBridge(s, bridge, ports) && s'.ovs == s.ovs
    ensures OnBridge(s', bridge, ports)
  {
  }

  lemma ReconciledRecord(s: State, id: Id, scraped: R.PortDesc)
    requires id in s.networks
    ensures var s' := ReconcileState(s, id, Some(scraped));
            && id in s'.networks && s'.networks[id] == s.networks[id].(externals := s'.networks[id].externals)
            && s'.mirrors == s.mirrors && s'.bridges == s.bridges && s'.ovs == s.ovs && s'.ofPorts == s.ofPorts
            && id in s'.cache && s'.cache[id] == scraped
  {
    N.ReconcileShape(s, id, Some(scraped));
    OwnPass(s, Some(scraped), id, 0);
    hide ReconcileState, Table, SettingsOf;
  }

  // -------------------------------------------------------------------------------------
  // A preallocated entry is spent

  /** One container's stay. */
  function Stay(id: Id, e: Id, j: Joined): seq<Event> {
    [] + [Event(ReservePort(id, e), NoFault)] + [Event(JoinContainer(id, e, j), NoFault)] + [Event(LeaveContainer(id, e), NoFault)]
  }

  lemma StaySite(sys: Sys, id: Id, net: Network, lb: nat, e: Id, j: Joined, base: multiset<Rule>)
    requires FF.Inv(sys, base) && Site(sys, id, net, lb, map[], map[]) && sys.state.ofPorts == map[]
    ensures var events := Stay(id, e, j);
            var last := Run(sys, events);
            && LegalRun(sys, events) && FF.Inv(last, base) && Site(last, id, net, lb, map[], map[])
            && last.state.ofPorts == map[] && last.state.cache == sys.state.cache && EntryAt(last.state, id, 1) == None
            && (forall x :: x in last.state.ovs ==> x == Veth(e) || x in sys.state.ovs)
  {
    hide Veth, EntryAt, Agree, K.Conserved;
    var a, b := [] + [Event(ReservePort(id, e), NoFault)], [] + [Event(ReservePort(id, e), NoFault)] + [Event(JoinContainer(id, e, j), NoFault)];
    assert LegalRun(sys, []) && Run(sys, []) == sys;
    hide Legal, Next, LegalRun, Run, Site;
    ReserveSite(sys, id, net, lb, e);
    ExtendInv(sys, [], ReservePort(id, e), base);
    JoinSite(Run(sys, a), id, net, lb, e, j);
    ExtendInv(sys, a, JoinContainer(id, e, j), base);
    LeaveSite(Run(sys, b), id, net, lb, e, j, base);
    ExtendInv(sys, b, LeaveContainer(id, e), base);
  }

  /** A network with one port preallocated: creation configures it, the first container has it, and
      after that container's stay it is gone for good. */
  lemma EntrySpent(sys: Sys, id: Id, net: Network, lb: nat, e: Id, j: Joined)
    requires Initial(sys) && Plain(net) && net.preallocate == 1 && sys.state.links == NoLinks
    ensures var created := Run(sys, Setup(id, net, lb));
            && LegalRun(sys, Setup(id, net, lb)) && LegalRun(created, Stay(id, e, j))
            && WindowEntries.HasEntry(created.state, id, 1)
            && !WindowEntries.HasEntry(Run(created, Stay(id, e, j)).state, id, 1)
  {
    hide EntryAt, Veth;
    SetupSite(sys, id, net, lb);
    SetupConfigures(sys, id, net, lb);
    hide Initial, LegalRun, Run;
    StaySite(Run(sys, Setup(id, net, lb)), id, net, lb, e, j, multiset(sys.state.rules));
  }

  lemma SetupConfigures(sys: Sys, id: Id, net: Network, lb: nat)
    requires Initial(sys) && Plain(net) && net.preallocate == 1 && sys.state.links == NoLinks
    ensures WindowEntries.HasEntry(Run(sys, Setup(id, net, lb)).state, id, 1)
  {
    var sys1 := Next(sys, InitBridge(id, net, lb, map[]), NoFault);
    InitSite(sys, id, net, lb);
    CreatedSite(sys1, id, net, lb);
    var sys2 := Next(sys1, CreateNetwork(id, [], []), NoFault);
    assert Run(sys, Setup(id, net, lb)) == sys2 by {
      var events := Setup(id, net, lb);
      assert events[1..] == [Event(CreateNetwork(id, [], []), NoFault)] && events[1..][1..] == [];
      hide Next;
      L.Unroll(sys, events);
      L.Unroll(sys1, events[1..]);
    }
    FirstWindow(sys1.state, net);
    var t := Table(Exec(sys1.state, CreateScript(sys1.state, id, net, lb, [], []), NoFault).state, net.name);
    assert [] + [] + LinkEnds(sys1.state.links, net) == [];
    hide Exec, CreateScript, Run;
    Preallocation.WindowConfigured(sys1.state, id, net, lb, [], [], 1);
    assert sys2.state == Exec(sys1.state, CreateScript(sys1.state, id, net, lb, [], []), NoFault).state;
  }

  lemma FirstWindow(s: State, net: Network)
    requires OnBridge(s, net.bridge, map[]) && net.preallocate == 1
    ensures 1 in Window(Scan(UsedPorts(s.ovs, net.bridge)), net.preallocate)
  {
    UsedOn(s, net.bridge, map[]);
    var none: map<string, nat> := map[];
    assert none.Values == {} && Scan({}) == LeastFree({}, 1) == 1;
    assert InSpan(1, 1, 1);
  }

  // -------------------------------------------------------------------------------------
  // A number falls out of step

  /** A host port is plugged in at 1, scraped, and taken out again. */
  function Visit(id: Id, net: Network): seq<Event> {
    [] + [Event(Plug("eth9", net.bridge, 1), NoFault)] + [Event(Reconcile(id, Some(map[1 := "eth9"])), NoFault)] + [Event(Unplug("eth9"), NoFault)]
  }

  lemma VisitSite(sys: Sys, id: Id, net: Network, lb: nat, base: multiset<Rule>)
    requires FF.Inv(sys, base) && Site(sys, id, net, lb, map[], map[]) && sys.state.ofPorts == map[] && "eth9" !in sys.state.ovs
    ensures var events := Visit(id, net);
            var last := Run(sys, events);
            && LegalRun(sys, events) && FF.Inv(last, base) && Site(last, id, net, lb, map[], map[]) && last.state.ofPorts == map[]
            && id in last.state.cache && last.state.cache[id] == map[1 := "eth9"] && "eth9" !in last.state.ovs
  {
    var a, b := [] + [Event(Plug("eth9", net.bridge, 1), NoFault)],
                [] + [Event(Plug("eth9", net.bridge, 1), NoFault)] + [Event(Reconcile(id, Some(map[1 := "eth9"])), NoFault)];
    assert LegalRun(sys, []) && Run(sys, []) == sys;
    assert !IsContainerPort("eth9");
    var none, one: map<string, nat> := map[], map["eth9" := 1];
    assert none["eth9" := 1] == one && one - {"eth9"} == none && 1 !in none.Values;
    hide Legal, Next, LegalRun, Run, Site, FF.Inv, IsContainerPort;
    PlugSite(sys, id, net, lb, map[], none, "eth9", 1);
    ExtendInv(sys, [], Plug("eth9", net.bridge, 1), base);
    ReconcileSite(Run(sys, a), id, net, lb, "eth9", 1);
    ExtendInv(sys, a, Reconcile(id, Some(map[1 := "eth9"])), base);
    UnplugSite(Run(sys, b), id, net, lb, map[], one, "eth9");
    ExtendInv(sys, b, Unplug("eth9"), base);
  }

  /** It comes back to its number before the next scrape. */
  function Return(id: Id, net: Network): seq<Event> {
    [] + [Event(Plug("eth9", net.bridge, 1), NoFault)] + [Event(Reconcile(id, Some(map[1 := "eth9"])), NoFault)]
  }

  lemma ReturnSite(sys: Sys, id: Id, net: Network, lb: nat, base: multiset<Rule>)
    requires FF.Inv(sys, base) && Site(sys, id, net, lb, map[], map[]) && "eth9" !in sys.state.ovs && EntryAt(sys.state, id, 1) == None
    requires id in sys.state.cache && sys.state.cache[id] == map[1 := "eth9"]
    ensures var last := Run(sys, Return(id, net));
            && LegalRun(sys, Return(id, net)) && Site(last, id, net, lb, map[], map["eth9" := 1])
            && EntryAt(last.state, id, 1) == None && Cached(last.state, id) == map[1 := "eth9"]
  {
    var a := [] + [Event(Plug("eth9", net.bridge, 1), NoFault)];
    assert LegalRun(sys, []) && Run(sys, []) == sys;
    assert !IsContainerPort("eth9");
    var none, one: map<string, nat> := map[], map["eth9" := 1];
    assert none["eth9" := 1] == one && 1 !in none.Values;
    PlugSite(sys, id, net, lb, map[], none, "eth9", 1);
    ExtendInv(sys, [], Plug("eth9", net.bridge, 1), base);
    var sys1 := Run(sys, a);
    assert EntryAt(sys1.state, id, 1) == None;
    ReconcileSite(sys1, id, net, lb, "eth9", 1);
    ReturnPass(sys1, id);
    hide Legal, Next, LegalRun, Run, FF.Inv, IsContainerPort;
    ExtendInv(sys, a, Reconcile(id, Some(map[1 := "eth9"])), base);
  }

  lemma ReturnPass(sys: Sys, id: Id)
    requires id in sys.state.networks && id in sys.state.cache
    ensures var s' := Next(sys, Reconcile(id, Some(sys.state.cache[id])), NoFault).state;
            id in s'.networks && EntryAt(s', id, 1) == EntryAt(sys.state, id, 1) && Cached(s', id) == sys.state.cache[id]
  {
    hide ReconcileState, SettingsOf;
    OwnPass(sys.state, Some(sys.state.cache[id]), id, 1);
  }

  /** A host port gives way to a container and returns to its number before the next scrape: it is on
      the bridge, the cached scrape shows it, and the controller does not have it. */
  lemma OutOfStepReached(sys: Sys, id: Id, net: Network, lb: nat, e: Id, j: Joined)
    requires Initial(sys) && Plain(net) && lb != 1 && "eth9" !in sys.state.ovs
    ensures var s0 := Run(sys, Setup(id, net, lb));
            var s1 := Run(s0, Visit(id, net));
            var s2 := Run(s1, Stay(id, e, j));
            var s3 := Run(s2, Return(id, net));
            && LegalRun(sys, Setup(id, net, lb)) && LegalRun(s0, Visit(id, net)) && LegalRun(s1, Stay(id, e, j)) && LegalRun(s2, Return(id, net))
            && "eth9" in s3.state.ovs && s3.state.ovs["eth9"] == At(net.bridge, 1)
            && id in s3.state.networks && EntryAt(s3.state, id, 1) == None && !Refinement.InStep(s3.state, id, 1)
  {
    var base := multiset(sys.state.rules);
    SetupSite(sys, id, net, lb);
    var s0 := Run(sys, Setup(id, net, lb));
    VethIsNotEth9(e);
    hide Initial, LegalRun, Run, FF.Inv, Veth;
    VisitSite(s0, id, net, lb, base);
    var s1 := Run(s0, Visit(id, net));
    StaySite(s1, id, net, lb, e, j, base);
    var s2 := Run(s1, Stay(id, e, j));
    ReturnSite(s2, id, net, lb, base);
    WantedAtOne(Run(s2, Return(id, net)), id, net, lb);
  }

  lemma VethIsNotEth9(e: Id)
    ensures Veth(e) != "eth9"
  {
    VethNames(e, e);
    assert !IsContainerPort("eth9");
  }

  lemma WantedAtOne(sys: Sys, id: Id, net: Network, lb: nat)
    requires Site(sys, id, net, lb, map[], map["eth9" := 1]) && Plain(net) && lb != 1
    requires EntryAt(sys.state, id, 1) == None && Cached(sys.state, id) == map[1 := "eth9"]
    ensures "eth9" in sys.state.ovs && sys.state.ovs["eth9"] == At(net.bridge, 1)
    ensures !Refinement.InStep(sys.state, id, 1)
  {
    var one: map<string, nat> := map["eth9" := 1];
    assert "eth9" in one;
    assert !IsContainerPort("eth9") && "eth9"[0] != PATCH_PREFIX[0];
    assert R.Wants(SettingsOf(sys.state, id), Cached(sys.state, id), 1);
    hide EntryAt;
  }

  // -------------------------------------------------------------------------------------
  // A dead endpoint's reservation disagrees with the bridge

  /** After a stay whose join panicked, with a host port plugged in where the endpoint was. */
  function Haunted(id: Id, net: Network, dead: Id, j: Joined): seq<Event> {
    [] + [Event(ReservePort(id, dead), NoFault)] + [Event(JoinContainer(id, dead, j), FaultAfter(0))]
    + [Event(LeaveContainer(id, dead), NoFault)] + [Event(Plug("eth9", net.bridge, 1), NoFault)]
  }

  lemma FailedJoinSite(sys: Sys, id: Id, net: Network, lb: nat, e: Id, j: Joined)
    requires Site(sys, id, net, lb, map[e := Endpoint(id, false)], map[Veth(e) := 1]) && j.maps == []
    ensures var op := JoinContainer(id, e, j);
            var sys' := Next(sys, op, FaultAfter(0));
            && Legal(sys, op) && Site(sys', id, net, lb, map[e := Endpoint(id, true)], map[Veth(e) := 1]) && sys'.state == sys.state
  {
    hide Veth;
    L.FailedJoinNext(sys, id, e, j);
    assert sys.docker.eps[e := Endpoint(id, true)] == map[e := Endpoint(id, true)];
    hide StateNext;
  }

  lemma StaleLeaveSite(sys: Sys, id: Id, net: Network, lb: nat, e: Id)
    requires Site(sys, id, net, lb, map[e := Endpoint(id, true)], map[Veth(e) := 1]) && sys.state.ofPorts == map[e := Reservation(1, None)]
    ensures var op := LeaveContainer(id, e);
            var sys' := Next(sys, op, NoFault);
            && Legal(sys, op) && Site(sys', id, net, lb, map[], map[]) && sys'.state.ofPorts == sys.state.ofPorts
            && (forall x :: x in sys'.state.ovs ==> x != Veth(e) && x in sys.state.ovs)
  {
    hide Veth, Exec, LeaveScript, Perform;
    var ports: map<string, nat> := map[Veth(e) := 1];
    assert Veth(e) in ports;
    FaultyRuns.StaleReservationIff(sys.state, id, e);
    Faults.LeaveOutcomes(sys.state, id, e, NoFault);
    var s, s' := sys.state, Next(sys, LeaveContainer(id, e), NoFault).state;
    FaultyRuns.ForgetKeepsPorts(s.(ovs := s.ovs - {Veth(e)}, rules := s'.rules, faucet := s'.faucet), id, e);
    assert s' == s.(ovs := s.ovs - {Veth(e)}, rules := s'.rules, faucet := s'.faucet);
    assert sys.docker.eps - {e} == map[];
    hide Next, Table;
  }

  lemma HauntedSite(sys: Sys, id: Id, net: Network, lb: nat, dead: Id, j: Joined)
    requires Agree(sys) && Site(sys, id, net, lb, map[], map[]) && sys.state.ofPorts == map[] && j.maps == [] && "eth9" !in sys.state.ovs
    ensures var last := Run(sys, Haunted(id, net, dead, j));
            && LegalRun(sys, Haunted(id, net, dead, j)) && Site(last, id, net, lb, map[], map["eth9" := 1])
            && last.state.ofPorts == map[dead := Reservation(1, None)] && Veth(dead) !in last.state.ovs
  {
    VethIsNotEth9(dead);
    var a := [] + [Event(ReservePort(id, dead), NoFault)];
    var b := a + [Event(JoinContainer(id, dead, j), FaultAfter(0))];
    var c := b + [Event(LeaveContainer(id, dead), NoFault)];
    assert LegalRun(sys, []) && Run(sys, []) == sys;
    assert !IsContainerPort("eth9");
    var none, one: map<string, nat> := map[], map["eth9" := 1];
    assert none["eth9" := 1] == one && 1 !in none.Values;
    hide Legal, Next, LegalRun, Run, Site, Agree, Veth, IsContainerPort;
    ReserveSite(sys, id, net, lb, dead);
    Extend(sys, [], Event(ReservePort(id, dead), NoFault));
    FailedJoinSite(Run(sys, a), id, net, lb, dead, j);
    Extend(sys, a, Event(JoinContainer(id, dead, j), FaultAfter(0)));
    StaleLeaveSite(Run(sys, b), id, net, lb, dead);
    Extend(sys, b, Event(LeaveContainer(id, dead), NoFault));
    PlugSite(Run(sys, c), id, net, lb, map[], none, "eth9", 1);
    Extend(sys, c, Event(Plug("eth9", net.bridge, 1), NoFault));
  }

  /** The next endpoint that shares its five characters is plugged in at another number, and the dead
      one's reservation now names the wrong one. */
  lemma SharedNameReached(sys: Sys, id: Id, net: Network, lb: nat, dead: Id, e: Id, j: Joined)
    requires Initial(sys) && Plain(net) && j.maps == [] && "eth9" !in sys.state.ovs
    requires dead != e && dead[..5] == e[..5]
    ensures var s0 := Run(sys, Setup(id, net, lb));
            var s1 := Run(s0, Haunted(id, net, dead, j));
            && LegalRun(sys, Setup(id, net, lb)) && LegalRun(s0, Haunted(id, net, dead, j)) && Legal(s1, ReservePort(id, e))
            && FaultyRuns.Clashes(s1, ReservePort(id, e), NoFault)
            && !FaultyRuns.NumbersMatch(Next(s1, ReservePort(id, e), NoFault).state)
  {
    SetupSite(sys, id, net, lb);
    SetupSurvives(sys, Setup(id, net, lb));
    hide Initial;
    var s0 := Run(sys, Setup(id, net, lb));
    HauntedSite(s0, id, net, lb, dead, j);
    var s1 := Run(s0, Haunted(id, net, dead, j));
    FaultyRuns.RunSurvives(s0, Haunted(id, net, dead, j));
    hide LegalRun, Run, FF.Inv;
    HauntedClash(s1, id, net, lb, dead, e);
  }

  lemma SetupSurvives(sys: Sys, events: seq<Event>)
    requires Initial(sys) && LegalRun(sys, events)
    ensures Faults.Survives(Run(sys, events))
  {
    assert Faults.Survives(sys);
    FaultyRuns.RunSurvives(sys, events);
  }

  lemma HauntedClash(sys: Sys, id: Id, net: Network, lb: nat, dead: Id, e: Id)
    requires Faults.Survives(sys) && Site(sys, id, net, lb, map[], map["eth9" := 1])
    requires sys.state.ofPorts == map[dead := Reservation(1, None)] && Veth(dead) !in sys.state.ovs
    requires dead != e && dead[..5] == e[..5]
    ensures Legal(sys, ReservePort(id, e)) && FaultyRuns.Clashes(sys, ReservePort(id, e), NoFault)
    ensures !FaultyRuns.NumbersMatch(Next(sys, ReservePort(id, e), NoFault).state)
  {
    VethNames(e, dead);
    var one: map<string, nat> := map["eth9" := 1];
    assert one["eth9"] == 1 && one.Values == {1};
    UsedOn(sys.state, net.bridge, one);
    assert Scan({1}) == LeastFree({1}, 1) == LeastFree({1}, 2) == 2;
    Faults.SupportedOvs(sys);
    hide Veth, Scan, UsedPorts, Faults.Survives;
    FaultyRuns.SharedNameMismatch(sys, id, e, dead);
    assert FaultyRuns.NumbersMatch(sys.state);
    FaultyRuns.ReserveMatchIff(sys, id, e, NoFault);
    hide Next;
  }

  // -------------------------------------------------------------------------------------
  // A failed deletion harms a live endpoint

  /** What is left of a network whose deletion failed: its record, its cached scrape and its bridge. */
  ghost predicate Remains(s: State, id: Id, net: Network, ports: map<string, nat>) {
    && id in s.networks && s.networks[id].name == net.name
    && id in s.cache && s.cache[id] == map[1 := "eth9"] && s.networks[id].bridge == net.bridge && OnBridge(s, net.bridge, ports)
  }

  /** Deleting a network fails at the first command; Docker thinks it is gone. */
  lemma FailedDelete(sys: Sys, id: Id, net: Network, lb: nat, ports: map<string, nat>)
    requires Site(sys, id, net, lb, map[], ports)
    ensures var sys' := Next(sys, DeleteNetwork(id), FaultAfter(0));
            Legal(sys, DeleteNetwork(id)) && sys'.docker == Docker(map[], map[]) && sys'.state == sys.state
  {
    hide Exec;
    var script := DeleteScript(sys.state, id);
    assert script[0].DelDp? && script == [script[0]] + script[1..];
    ExecCons(sys.state, script[0], script[1..], FaultAfter(0));
    assert sys.docker.nets - {id} == map[];
  }

  /** A second network of the same name, on a bridge of its own. */
  lemma SecondInit(sys: Sys, id: Id, net: Network, lb: nat, gone: Id, was: Network, ports: map<string, nat>)
    requires sys.docker == Docker(map[], map[]) && id !in sys.state.networks && Plain(net) && net.bridge != was.bridge
    requires Remains(sys.state, gone, was, ports)
    ensures var sys' := Next(sys, InitBridge(id, net, lb, map[]), NoFault);
            && Legal(sys, InitBridge(id, net, lb, map[]))
            && sys'.docker == Docker(map[id := Requested(net, lb, false)], map[]) && sys'.state.ofPorts == sys.state.ofPorts
            && net.bridge in sys'.state.bridges && OnBridge(sys'.state, net.bridge, map[]) && Remains(sys'.state, gone, was, ports)
  {
  }

  lemma SecondCreate(sys: Sys, id: Id, net: Network, lb: nat, gone: Id, was: Network, ports: map<string, nat>)
    requires id != gone && Remains(sys.state, gone, was, ports) && id in sys.docker.nets && sys.docker.nets[id] == Requested(net, lb, false)
    ensures Remains(Next(sys, CreateNetwork(id, [], []), NoFault).state, gone, was, ports)
  {
    hide Exec, CreateScript;
    N.CreateResult(sys.state, id, net, lb, [], [], NoFault);
    OtherRecord(sys.state, Next(sys, CreateNetwork(id, [], []), NoFault).state, id, net, lb, gone);
    hide N.Filled, Perform;
  }

  lemma OtherRecord(s: State, s': State, id: Id, net: Network, lb: nat, n: Id)
    requires N.Filled(Perform(s, RecordNetwork(id, net, lb)), s', id, net.name) && n in s.networks && n != id
    ensures n in s'.networks && s'.networks[n] == s.networks[n] && s'.cache == s.cache && s'.ovs == s.ovs
  {
    assert Perform(s, RecordNetwork(id, net, lb)) == s.(mirrors := s.mirrors[id := lb], networks := s.networks[id := net]);
    hide Perform, Table;
  }

  lemma SecondReserve(sys: Sys, id: Id, net: Network, lb: nat, e: Id, gone: Id, was: Network, ports: map<string, nat>)
    requires Site(sys, id, net, lb, map[], map[]) && sys.state.ofPorts == map[]
    requires Remains(sys.state, gone, was, ports) && net.bridge != was.bridge && Veth(e) !in sys.state.ovs
    ensures var op := ReservePort(id, e);
            var sys' := Next(sys, op, NoFault);
            && Legal(sys, op) && Site(sys', id, net, lb, map[e := Endpoint(id, false)], map[Veth(e) := 1])
            && sys'.state.ofPorts == map[e := Reservation(1, None)] && Remains(sys'.state, gone, was, ports)
  {
    hide Veth, Exec, ReserveScript;
    ReserveGoes(sys.state, id, net, e);
    assert sys.docker.eps[e := Endpoint(id, false)] == map[e := Endpoint(id, false)];
    SecondBridge(sys.state, net.bridge, e, was.bridge, ports);
    hide OnBridge;
  }

  /** With the bridge there and the name free, a reserve on a bridge with no ports gets number 1. */
  lemma ReserveGoes(s: State, id: Id, net: Network, e: Id)
    requires id in s.networks && s.networks[id].bridge == net.bridge && net.bridge in s.bridges
    requires OnBridge(s, net.bridge, map[]) && s.ofPorts == map[] && Veth(e) !in s.ovs
    ensures Exec(s, ReserveScript(s, id, e), NoFault).state ==
            s.(ovs := s.ovs[Veth(e) := At(net.bridge, 1)], ofPorts := map[e := Reservation(1, None)])
  {
    hide Veth, Exec;
    UsedOn(s, net.bridge, map[]);
    var none: map<string, nat> := map[];
    assert none.Values == {} && Scan({}) == LeastFree({}, 1) == 1;
    hide Scan, OnBridge;
    var add, record := AddPort(net.bridge, 1, Veth(e)), RecordPort(e, 1);
    assert ReserveScript(s, id, e) == [add] + [record] && [record] == [record] + [];
    hide ReserveScript;
    ExecCons(s, add, [record], NoFault);
    var s1 := s.(ovs := s.ovs[Veth(e) := At(net.bridge, 1)]);
    assert Perform(s, add) == s1;
    ExecCons(s1, record, [], NoFault);
    var s2 := s1.(ofPorts := map[e := Reservation(1, None)]);
    assert s1.ofPorts[e := Reservation(1, None)] == map[e := Reservation(1, None)];
    assert Perform(s1, record) == s2;
    ExecNil(s2, NoFault);
  }

  lemma SecondBridge(s: State, bridge: string, e: Id, other: string, ports: map<string, nat>)
    requires OnBridge(s, bridge, map[]) && OnBridge(s, other, ports) && bridge != other && Veth(e) !in s.ovs
    ensures var s' := s.(ovs := s.ovs[Veth(e) := At(bridge, 1)], ofPorts := map[e := Reservation(1, None)]);
            OnBridge(s', bridge, map[Veth(e) := 1]) && OnBridge(s', other, ports)
  {
    hide Veth;
  }

  lemma SecondJoin(sys: Sys, id: Id, net: Network, lb: nat, e: Id, j: Joined, gone: Id, was: Network, ports: map<string, nat>)
    requires Site(sys, id, net, lb, map[e := Endpoint(id, false)], map[Veth(e) := 1]) && sys.state.ofPorts == map[e := Reservation(1, None)]
    requires Remains(sys.state, gone, was, ports) && id != gone
    ensures var sys' := Next(sys, JoinContainer(id, e, j), NoFault);
            && Remains(sys'.state, gone, was, ports)
            && e in sys'.docker.eps && e in sys'.state.ofPorts && LR.LiveOk(sys', e)
  {
    hide Veth, Exec, JoinScript, JoinedState, OnBridge;
    JoinResult(sys.state, id, e, j);
    JoinedSite(sys.state, id, net, e, j);
    JoinedLive(sys.state, id, net, e, j, gone);
    SameOnBridge(sys.state, JoinedState(sys.state, id, e, j), was.bridge, ports);
  }

  /** All four records of the endpoint that joined, and the other networks' as they were. */
  lemma JoinedLive(s: State, id: Id, net: Network, e: Id, j: Joined, other: Id)
    requires id in s.networks && s.networks[id].bridge == net.bridge && other in s.networks && other != id
    requires s.ofPorts == map[e := Reservation(1, None)] && OnBridge(s, net.bridge, map[Veth(e) := 1])
    ensures var s' := JoinedState(s, id, e, j);
            && other in s'.networks && s'.networks[other] == s.networks[other] && s'.cache == s.cache
            && id in s'.networks && SameNetwork(s'.networks[id], s.networks[id])
            && e in s'.networks[id].containers && s'.networks[id].containers[e].port == 1
            && Veth(e) in s'.ovs && s'.ovs[Veth(e)] == At(net.bridge, 1) && e in s'.ofPorts && s'.ofPorts[e] == Reservation(1, Some(j))
            && 1 in Table(s', s.networks[id].name)
            && Table(s', s.networks[id].name)[1] == Container(j.description, s.networks[id].vlan, Labels.PortAcl(j.portAcl, s.networks[id].defaultAcl, s.networks[id].name))
  {
    hide Veth, JoinRules;
    var own: map<string, nat> := map[Veth(e) := 1];
    assert Veth(e) in own;
  }

  lemma SecondUnplug(sys: Sys, id: Id, net: Network, lb: nat, e: Id, gone: Id, was: Network)
    requires Site(sys, id, net, lb, map[e := Endpoint(id, true)], map[Veth(e) := 1]) && LR.Reserved(sys, e) && LR.LiveOk(sys, e)
    requires Remains(sys.state, gone, was, map["eth9" := 1])
    ensures var sys' := Next(sys, Unplug("eth9"), NoFault);
            && Legal(sys, Unplug("eth9")) && Remains(sys'.state, gone, was, map[]) && sys'.docker == sys.docker
            && LR.Reserved(sys', e) && LR.LiveOk(sys', e) && sys'.state.ofPorts == sys.state.ofPorts
            && sys'.state.networks == sys.state.networks
  {
    VethIsNotEth9(e);
    assert !IsContainerPort("eth9");
    hide Veth, IsContainerPort;
  }

  /** The first network up to its failed deletion: a host port is plugged in at 1 and scraped. */
  function Abandoned(id: Id, net: Network): seq<Event> {
    [] + [Event(Plug("eth9", net.bridge, 1), NoFault)] + [Event(Reconcile(id, Some(map[1 := "eth9"])), NoFault)]
    + [Event(DeleteNetwork(id), FaultAfter(0))]
  }

  lemma AbandonedSite(sys: Sys, id: Id, net: Network, lb: nat)
    requires Site(sys, id, net, lb, map[], map[]) && sys.state.ofPorts == map[] && "eth9" !in sys.state.ovs
    ensures var last := Run(sys, Abandoned(id, net));
            && LegalRun(sys, Abandoned(id, net)) && last.docker == Docker(map[], map[]) && last.state.ofPorts == map[]
            && Remains(last.state, id, net, map["eth9" := 1]) && last.state.networks.Keys == sys.state.networks.Keys
            && (forall x :: x in last.state.ovs ==> x == "eth9" || x in sys.state.ovs)
  {
    var a := [] + [Event(Plug("eth9", net.bridge, 1), NoFault)];
    var b := a + [Event(Reconcile(id, Some(map[1 := "eth9"])), NoFault)];
    assert LegalRun(sys, []) && Run(sys, []) == sys;
    assert !IsContainerPort("eth9");
    var none, one: map<string, nat> := map[], map["eth9" := 1];
    assert none["eth9" := 1] == one && 1 !in none.Values;
    PlugSite(sys, id, net, lb, map[], none, "eth9", 1);
    var sys1 := Next(sys, Plug("eth9", net.bridge, 1), NoFault);
    assert sys1.state.networks == sys.state.networks;
    ReconcileSite(sys1, id, net, lb, "eth9", 1);
    N.ReconcileShape(sys1.state, id, Some(map[1 := "eth9"]));
    var sys2 := Next(sys1, Reconcile(id, Some(map[1 := "eth9"])), NoFault);
    assert sys2.state.networks.Keys == sys.state.networks.Keys;
    FailedDelete(sys2, id, net, lb, one);
    assert Remains(sys2.state, id, net, one);
    hide Legal, Next, LegalRun, Run, IsContainerPort, Remains, Site;
    Extend(sys, [], Event(Plug("eth9", net.bridge, 1), NoFault));
    Extend(sys, a, Event(Reconcile(id, Some(map[1 := "eth9"])), NoFault));
    Extend(sys, b, Event(DeleteNetwork(id), FaultAfter(0)));
  }

  /** The second network, with a container joined, and the host port taken out. */
  function Reborn(id: Id, net: Network, lb: nat, e: Id, j: Joined): seq<Event> {
    [] + [Event(InitBridge(id, net, lb, map[]), NoFault)] + [Event(CreateNetwork(id, [], []), NoFault)]
    + [Event(ReservePort(id, e), NoFault)] + [Event(JoinContainer(id, e, j), NoFault)] + [Event(Unplug("eth9"), NoFault)]
  }

  lemma RebornSite(sys: Sys, id: Id, net: Network, lb: nat, e: Id, j: Joined, gone: Id, was: Network)
    requires sys.docker == Docker(map[], map[]) && id !in sys.state.networks && Plain(net) && id != gone
    requires net.bridge != was.bridge && net.name == was.name && sys.state.ofPorts == map[]
    requires Remains(sys.state, gone, was, map["eth9" := 1]) && Veth(e) !in sys.state.ovs
    ensures var last := Run(sys, Reborn(id, net, lb, e, j));
            && LegalRun(sys, Reborn(id, net, lb, e, j)) && LR.Reserved(last, e) && LR.LiveOk(last, e)
            && last.docker.eps[e].network == id && id in last.state.networks && last.state.networks[id].name == net.name
            && last.state.ofPorts == map[e := Reservation(1, Some(j))] && Remains(last.state, gone, was, map[])
  {
    var one: map<string, nat> := map["eth9" := 1];
    var a := [] + [Event(InitBridge(id, net, lb, map[]), NoFault)];
    var b := a + [Event(CreateNetwork(id, [], []), NoFault)];
    var c := b + [Event(ReservePort(id, e), NoFault)];
    var d := c + [Event(JoinContainer(id, e, j), NoFault)];
    assert LegalRun(sys, []) && Run(sys, []) == sys;
    InitKeepsFree(sys.state, net, e);
    hide Legal, Next, LegalRun, Run, Veth, Remains, Site, LR.LiveOk;
    SecondInit(sys, id, net, lb, gone, was, one);
    Extend(sys, [], Event(InitBridge(id, net, lb, map[]), NoFault));
    CreatedSite(Run(sys, a), id, net, lb);
    SecondCreate(Run(sys, a), id, net, lb, gone, was, one);
    Extend(sys, a, Event(CreateNetwork(id, [], []), NoFault));
    assert Veth(e) !in Run(sys, a).state.ovs by { InitNext(sys, id, net, lb); }
    SecondReserve(Run(sys, b), id, net, lb, e, gone, was, one);
    Extend(sys, b, Event(ReservePort(id, e), NoFault));
    JoinSite(Run(sys, c), id, net, lb, e, j);
    SecondJoin(Run(sys, c), id, net, lb, e, j, gone, was, one);
    Extend(sys, c, Event(JoinContainer(id, e, j), NoFault));
    SiteReserved(Run(sys, d), id, net, lb, e, j);
    SecondUnplug(Run(sys, d), id, net, lb, e, gone, was);
    Extend(sys, d, Event(Unplug("eth9"), NoFault));
  }

  lemma InitKeepsFree(s: State, net: Network, e: Id)
    requires Veth(e) !in s.ovs
    ensures Veth(e) !in InitState(s, net, map[]).ovs
  {
    hide Veth;
  }

  lemma InitNext(sys: Sys, id: Id, net: Network, lb: nat)
    ensures Next(sys, InitBridge(id, net, lb, map[]), NoFault).state == InitState(sys.state, net, map[])
  {
  }

  lemma SiteReserved(sys: Sys, id: Id, net: Network, lb: nat, e: Id, j: Joined)
    requires Site(sys, id, net, lb, map[e := Endpoint(id, true)], map[Veth(e) := 1]) && sys.state.ofPorts == map[e := Reservation(1, Some(j))]
    ensures LR.Reserved(sys, e) && sys.docker.eps[e].network == id && id in sys.state.networks && sys.state.networks[id].name == net.name
  {
    hide Veth;
  }

  /** The manager's next pass over what is left of the first network deletes the interface of the
      second network's container. */
  lemma StaleHarmReached(sys: Sys, gone: Id, was: Network, id: Id, net: Network, lb: nat, e: Id, j: Joined)
    requires Initial(sys) && Plain(was) && Plain(net) && "eth9" !in sys.state.ovs && id != gone
    requires net.name == was.name && net.bridge != was.bridge
    ensures var s0 := Run(sys, Setup(gone, was, lb));
            var s1 := Run(s0, Abandoned(gone, was));
            var s2 := Run(s1, Reborn(id, net, lb, e, j));
            && LegalRun(sys, Setup(gone, was, lb)) && LegalRun(s0, Abandoned(gone, was)) && LegalRun(s1, Reborn(id, net, lb, e, j))
            && Legal(s2, Reconcile(gone, Some(map[]))) && LR.Reserved(s2, e) && LR.LiveOk(s2, e)
            && !LR.AllLive(Next(s2, Reconcile(gone, Some(map[])), NoFault))
  {
    SetupSite(sys, gone, was, lb);
    SetupOnly(sys, gone, was, lb, id, e);
    var s0 := Run(sys, Setup(gone, was, lb));
    VethIsNotEth9(e);
    hide Initial, FF.Inv, Veth;
    AbandonedSite(s0, gone, was, lb);
    var s1 := Run(s0, Abandoned(gone, was));
    RebornSite(s1, id, net, lb, e, j, gone, was);
    var s2 := Run(s1, Reborn(id, net, lb, e, j));
    hide LegalRun, Run, Site;
    FinalHarm(s2, gone, was, id, net, e, j);
  }

  lemma SetupOnly(sys: Sys, id: Id, net: Network, lb: nat, other: Id, e: Id)
    requires Initial(sys) && Plain(net) && other != id && FF.Inv(Run(sys, Setup(id, net, lb)), multiset(sys.state.rules))
    requires Site(Run(sys, Setup(id, net, lb)), id, net, lb, map[], map[])
    requires forall name :: name in Run(sys, Setup(id, net, lb)).state.ovs ==> name in sys.state.ovs
    ensures other !in Run(sys, Setup(id, net, lb)).state.networks && Veth(e) !in Run(sys, Setup(id, net, lb)).state.ovs
  {
    VethNames(e, e);
    hide Run, Veth, IsContainerPort;
  }

  lemma FinalHarm(sys: Sys, gone: Id, was: Network, id: Id, net: Network, e: Id, j: Joined)
    requires LR.Reserved(sys, e) && LR.LiveOk(sys, e) && sys.docker.eps[e].network == id && id in sys.state.networks
    requires sys.state.networks[id].name == net.name && net.name == was.name
    requires sys.state.ofPorts == map[e := Reservation(1, Some(j))] && Remains(sys.state, gone, was, map[])
    ensures Legal(sys, Reconcile(gone, Some(map[]))) && !LR.AllLive(Next(sys, Reconcile(gone, Some(map[])), NoFault))
  {
    hide Veth, LR.LiveOk;
    assert !IsContainerPort("eth9");
    assert IsScrape(sys.state, was.bridge, map[]);
    LR.StaleNamesakeHarms(sys, e, gone);
    LR.ReconcileLiveIff(sys, gone, Some(map[]), NoFault, e);
    hide Next;
  }
}
