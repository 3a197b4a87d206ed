/**
 The operations on the world: the resource manager's handlers as scripts, the reconciler,
 and what Docker and the host's administrator do beside them.  Docker's own record of
 networks and endpoints says which requests can arrive.
 */
module Handlers {
  import opened Types
  import opened Ports
  import opened Rules
  import opened World
  import Labels
  import R = Reconciler

  datatype Requested = Requested(network: Network, lbPort: nat, created: bool)

  datatype Endpoint = Endpoint(network: Id, joined: bool)

  /** Networks requested and not yet deleted; endpoints requested and not yet left. */
  datatype Docker = Docker(nets: map<Id, Requested>, eps: map<Id, Endpoint>)

  datatype Sys = Sys(docker: Docker, state: State)

  datatype Op =
    | InitBridge(id: Id, network: Network, lbPort: nat, attached: map<string, nat>)
    | CreateNetwork(id: Id, physicalOrder: seq<string>, coproOrder: seq<string>)
    | DeleteNetwork(id: Id)
    | ReservePort(id: Id, endpoint: Id)
    | JoinContainer(id: Id, endpoint: Id, joined: Joined)
    | LeaveContainer(id: Id, endpoint: Id)
    | Reconcile(id: Id, scrape: Option<R.PortDesc>)
    | DhcpUpdate(id: Id, endpoint: Id, hostIP: string)
    | Plug(name: string, bridge: string, port: nat)
    | Unplug(name: string)

  // -------------------------------------------------------------------------------------
  // Handler scripts

  function ExternalSteps(ovs: map<string, Attachment>, id: Id, names: seq<string>): seq<Step> {
    if names == [] then []
    else if names[0] !in ovs then [Panic]
    else [RecordExternal(id, names[0], ovs[names[0]].port)] + ExternalSteps(ovs, id, names[1..])
  }

  /** A port's own VLAN if it was given one, otherwise the network's. */
  function VlanFor(net: Network, name: string): nat {
    if name in net.physical && net.physical[name].Some? then net.physical[name].value else net.vlan
  }

  function PhysicalIfaces(ovs: map<string, Attachment>, net: Network, names: seq<string>): map<nat, Iface> {
    if names == [] then map[]
    else
      var last := names[|names| - 1];
      var rest := PhysicalIfaces(ovs, net, names[..|names| - 1]);
      if last !in ovs then rest
      else
        rest[ovs[last].port := Physical(last, VlanFor(net, last))]
  }

  function CoproIfaces(ovs: map<string, Attachment>, names: seq<string>): map<nat, Iface> {
    if names == [] then map[]
    else
      var last := names[|names| - 1];
      var rest := CoproIfaces(ovs, names[..|names| - 1]);
      if last !in ovs then rest else rest[ovs[last].port := Coprocessor(last)]
  }

  function PreallocatedIfaces(ovs: map<string, Attachment>, net: Network): map<nat, Iface> {
    var first := Scan(UsedPorts(ovs, net.bridge));
    map p | p in Window(first, net.preallocate) :: Preallocated(net.vlan, Labels.ForNetwork(net.defaultAcl, net.name))
  }

  predicate HasGateway(net: Network) {
    net.mode == Nat || net.mode == Routed
  }

  /** Interfaces configured when a network is created; later ones override earlier ones. */
  function CreateIfaces(ovs: map<string, Attachment>, links: LinkMode, net: Network, lbPort: nat, physical: seq<string>, copro: seq<string>): map<nat, Iface> {
    var ports := PhysicalIfaces(ovs, net, physical) + CoproIfaces(ovs, copro) + PreallocatedIfaces(ovs, net);
    var gateway := if HasGateway(net) then ports[OF_PORT_LOCAL := Gateway(net.vlan, Labels.ForNetwork(net.natAcl, net.name))] else ports;
    gateway + LinkIface(ovs, links, net, lbPort)
  }

  /** The one interface that a mirror or stack link adds. */
  function LinkIface(ovs: map<string, Attachment>, links: LinkMode, net: Network, lbPort: nat): map<nat, Iface> {
    match links
    case NoLinks => map[]
    case MirrorLinks => map[lbPort := MirrorOut]
    case StackLinks(dp) =>
      if net.near in ovs && net.far in ovs then map[ovs[net.near].port := StackLink(dp, ovs[net.far].port)] else map[]
  }

  /** The link ends whose numbers are looked up. */
  function LinkEnds(links: LinkMode, net: Network): seq<string> {
    match links
    case NoLinks => []
    case MirrorLinks => [net.far]
    case StackLinks(_) => [net.near, net.far]
  }

  function LookupSteps(ovs: map<string, Attachment>, names: seq<string>): seq<Step> {
    if names == [] then []
    else if names[0] !in ovs then [Panic]
    else [Call] + LookupSteps(ovs, names[1..])
  }

  function CreateScript(s: State, id: Id, net: Network, lbPort: nat, physical: seq<string>, copro: seq<string>): seq<Step> {
    [RecordNetwork(id, net, lbPort)]
    + ExternalSteps(s.ovs, id, physical)
    + ExternalSteps(s.ovs, id, copro)
    + (if HasGateway(net) then [RecordExternal(id, net.bridge, OF_PORT_LOCAL)] else [])
    + LookupSteps(s.ovs, LinkEnds(s.links, net))
    + [MergeIfaces(net.name, CreateIfaces(s.ovs, s.links, net, lbPort, physical, copro))]
  }

  function DeleteScript(s: State, id: Id): seq<Step> {
    if id !in s.networks then [Panic]
    else
      var net := s.networks[id];
      [DelDp(net.name)]
      + (if net.mode == Nat then [DelRule(MasqueradeOut(net.cidr))] else [])
      + [DelBridge(net.bridge), ForgetNetwork(id)]
  }

  function ReserveScript(s: State, id: Id, e: Id): seq<Step> {
    if id !in s.networks then [Panic]
    else
      var b := s.networks[id].bridge;
      var port := Scan(UsedPorts(s.ovs, b));
      [AddPort(b, port, Veth(e)), RecordPort(e, port)]
  }

  /** An endpoint with no reservation joins on port 0.  Mirroring and the DHCP client come after
      the controller knows the port and before the join is recorded. */
  function JoinScript(s: State, id: Id, e: Id, j: Joined): seq<Step> {
    if id !in s.networks then [Panic]
    else
      var net := s.networks[id];
      var port := if e in s.ofPorts then s.ofPorts[e].port else 0;
      AddRules(JoinRules(net.bridge, j))
      + [MergeIfaces(net.name, map[port := Container(j.description, net.vlan, Labels.PortAcl(j.portAcl, net.defaultAcl, net.name))]),
         Call,
         RecordJoin(id, e, Reservation(port, Some(j)))]
  }

  /** The bridge port and the controller's interface go first; an endpoint that never
      completed its join has no container to inspect and the handler panics there. */
  function LeaveScript(s: State, id: Id, e: Id): seq<Step> {
    if e !in s.ofPorts || Veth(e) !in s.ovs || id !in s.networks then [Panic]
    else
      var net := s.networks[id];
      [DelPort(net.bridge, Veth(e)), DelIface(net.name, s.ovs[Veth(e)].port)]
      + LeaveTail(s, id, e, net.bridge)
  }

  function LeaveTail(s: State, id: Id, e: Id, bridge: string): seq<Step>
    requires e in s.ofPorts
  {
    var r := s.ofPorts[e];
    if r.joined.None? then [Panic]
    else DelRules(JoinRules(bridge, r.joined.value)) + [ForgetEndpoint(id, e)]
  }

  function Script(sys: Sys, op: Op): seq<Step> {
    var s := sys.state;
    match op
    case CreateNetwork(id, physical, copro) =>
      if id !in sys.docker.nets then [Panic]
      else CreateScript(s, id, sys.docker.nets[id].network, sys.docker.nets[id].lbPort, physical, copro)
    case DeleteNetwork(id) => DeleteScript(s, id)
    case ReservePort(id, e) => ReserveScript(s, id, e)
    case JoinContainer(id, e, j) => JoinScript(s, id, e, j)
    case LeaveContainer(id, e) => LeaveScript(s, id, e)
    case _ => []
  }

  // -------------------------------------------------------------------------------------
  // Operations that are not scripts

  /** The request's own thread builds the bridge (replacing one of that name), plugs in the
      ports it was given, and for a NAT network inserts the masquerading rule in front. */
  function InitState(s: State, net: Network, attached: map<string, nat>): State {
    var ports := map name | name in attached :: At(net.bridge, attached[name]);
    s.(bridges := s.bridges + {net.bridge},
       ovs := WithoutBridge(s.ovs, net.bridge) + ports,
       rules := if net.mode == Nat then [MasqueradeOut(net.cidr)] + s.rules else s.rules)
  }

  /** A panic on the way is recovered and the request fails: the bridge was taken down again, or
      it stands with the ports it has got, without or with the rule. */
  function InitOutcome(s: State, net: Network, attached: map<string, nat>, luck: Luck): State {
    var built := InitState(s, net, attached);
    if luck == FaultAfter(0) then s.(bridges := s.bridges - {net.bridge}, ovs := WithoutBridge(s.ovs, net.bridge))
    else if luck == FaultAfter(1) then built.(rules := s.rules)
    else built
  }

  function SettingsOf(s: State, id: Id): R.Settings
    requires id in s.networks
  {
    var net := s.networks[id];
    R.Settings(if id in s.mirrors then s.mirrors[id] else 0, net.physical.Keys + net.copro, net.vlan,
               if HasGateway(net) then Some(net.bridge) else None)
  }

  function ViewOf(s: State, id: Id): R.View
    requires id in s.networks
  {
    var net := s.networks[id];
    R.View(if id in s.cache then Some(s.cache[id]) else None, Table(s, net.name), net.externals)
  }

  function WithView(s: State, id: Id, v: R.View): State
    requires id in s.networks
  {
    var net := s.networks[id];
    s.(cache := if v.cache.Some? then s.cache[id := v.cache.value] else s.cache,
       faucet := s.faucet[net.name := v.table],
       networks := s.networks[id := net.(externals := v.externals)])
  }

  ghost function ReconcileState(s: State, id: Id, scrape: Option<R.PortDesc>): State {
    if id !in s.networks then s
    else WithView(s, id, R.Pass(SettingsOf(s, id), ViewOf(s, id), scrape))
  }

  function DhcpState(s: State, id: Id, e: Id, hostIP: string): State {
    if id !in s.networks || e !in s.networks[id].containers then s
    else
      var net := s.networks[id];
      var c := net.containers[e].(hostIP := hostIP);
      s.(networks := s.networks[id := net.(containers := net.containers[e := c])])
  }

  // -------------------------------------------------------------------------------------
  // Transitions

  /** A network whose bridge could not be initialised does not come into being. */
  function DockerNext(d: Docker, op: Op, luck: Luck): Docker {
    match op
    case InitBridge(id, net, lb, _) => if luck.NoFault? then d.(nets := d.nets[id := Requested(net, lb, false)]) else d
    case CreateNetwork(id, _, _) =>
      if id in d.nets then d.(nets := d.nets[id := d.nets[id].(created := true)]) else d
    case DeleteNetwork(id) => d.(nets := d.nets - {id})
    case ReservePort(id, e) => d.(eps := d.eps[e := Endpoint(id, false)])
    case JoinContainer(id, e, _) => d.(eps := d.eps[e := Endpoint(id, true)])
    case LeaveContainer(id, e) => d.(eps := d.eps - {e})
    case _ => d
  }

  ghost function StateNext(sys: Sys, op: Op, luck: Luck): State {
    var s := sys.state;
    match op
    case InitBridge(_, net, _, attached) => InitOutcome(s, net, attached, luck)
    case Reconcile(id, scrape) => ReconcileState(s, id, scrape)
    case DhcpUpdate(id, e, hostIP) => DhcpState(s, id, e, hostIP)
    case Plug(name, b, p) => s.(ovs := s.ovs[name := At(b, p)])
    case Unplug(name) => s.(ovs := s.ovs - {name})
    case _ => Exec(s, Script(sys, op), luck).state
  }

  ghost function Next(sys: Sys, op: Op, luck: Luck): Sys {
    Sys(DockerNext(sys.docker, op, luck), StateNext(sys, op, luck))
  }

  /** A scrape lists exactly the ports of the bridge. */
  ghost predicate IsScrape(s: State, bridge: string, scrape: R.PortDesc) {
    && (forall p :: p in scrape ==> scrape[p] in s.ovs && s.ovs[scrape[p]] == At(bridge, p))
    && (forall name :: name in s.ovs && s.ovs[name].bridge == bridge ==>
          s.ovs[name].port in scrape && scrape[s.ovs[name].port] == name)
  }

  ghost predicate Lists(order: seq<string>, names: set<string>) {
    && (forall i, j :: 0 <= i < j < |order| ==> order[i] != order[j])
    && (forall x :: x in order <==> x in names)
  }

  ghost predicate AttachedOk(s: State, net: Network, attached: map<string, nat>) {
    && (forall name :: name in attached ==>
          attached[name] >= 1 && !IsContainerPort(name) && name !in WithoutBridge(s.ovs, net.bridge))
    && (forall a, b :: a in attached && b in attached && attached[a] == attached[b] ==> a == b)
  }

  /** Identifiers are never used twice, and live endpoints are told apart by the five characters
      the driver keeps. */
  ghost predicate FreshEndpoint(sys: Sys, e: Id) {
    && e !in sys.docker.eps && e !in sys.state.ofPorts
    && (forall e' :: e' in sys.docker.eps ==> e'[..5] != e[..5])
  }

  /** The requests that can arrive: Docker issues CreateEndpoint, Join and Leave in that order,
      once each, and deletes a network when its endpoints have left. */
  ghost predicate Legal(sys: Sys, op: Op) {
    var d, s := sys.docker, sys.state;
    match op
    case InitBridge(id, net, _, attached) =>
      && id !in d.nets && id !in s.networks
      && net.containers == map[] && net.externals == map[]
      && (forall m :: m in d.nets ==> d.nets[m].network.name != net.name && d.nets[m].network.bridge != net.bridge)
      && AttachedOk(s, net, attached)
    case CreateNetwork(id, physical, copro) =>
      && id in d.nets && !d.nets[id].created
      && Lists(physical, d.nets[id].network.physical.Keys) && Lists(copro, d.nets[id].network.copro)
    case DeleteNetwork(id) =>
      && id in d.nets && d.nets[id].created
      && (forall e :: e in d.eps ==> d.eps[e].network != id)
    case ReservePort(id, e) => id in d.nets && d.nets[id].created && FreshEndpoint(sys, e)
    case JoinContainer(id, e, _) => e in d.eps && d.eps[e] == Endpoint(id, false)
    case LeaveContainer(id, e) => e in d.eps && d.eps[e] == Endpoint(id, true)
    case Reconcile(id, scrape) => id in s.networks && scrape.Some? ==> IsScrape(s, s.networks[id].bridge, scrape.value)
    case DhcpUpdate(_, _, _) => true
    case Plug(name, b, p) => b in s.bridges && name !in s.ovs && !IsContainerPort(name) && p >= 1 && p !in UsedPorts(s.ovs, b)
    case Unplug(name) => !IsContainerPort(name)
  }

  datatype Event = Event(op: Op, luck: Luck)

  ghost function Run(sys: Sys, events: seq<Event>): Sys
    decreases |events|
  {
    if events == [] then sys else Run(Next(sys, events[0].op, events[0].luck), events[1..])
  }

  ghost predicate LegalRun(sys: Sys, events: seq<Event>)
    decreases |events|
  {
    events != [] ==>
      Legal(sys, events[0].op) && LegalRun(Next(sys, events[0].op, events[0].luck), events[1..])
  }

  ghost predicate FaultFree(events: seq<Event>) {
    forall i :: 0 <= i < |events| ==> events[i].luck.NoFault?
  }

  /** Interfaces are properly numbered, on bridges that exist. */
  ghost predicate OvsOk(s: State) {
    Numbered(s.ovs) && forall name :: name in s.ovs ==> s.ovs[name].bridge in s.bridges
  }

  /** A driver that has just started with nothing to restore.  The host may already have
      bridges, interface tables and rules of its own, but nothing of a container's. */
  ghost predicate Initial(sys: Sys) {
    && sys.docker == Docker(map[], map[])
    && sys.state.networks == map[] && sys.state.mirrors == map[]
    && sys.state.ofPorts == map[] && sys.state.cache == map[]
    && OvsOk(sys.state)
    && (forall name :: name in sys.state.ovs ==> !IsContainerPort(name))
    && (forall dp, p :: p in Table(sys.state, dp) ==> !Table(sys.state, dp)[p].Container?)
  }
}
