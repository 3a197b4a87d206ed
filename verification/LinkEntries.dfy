/**
 The interfaces that creation configures for a network's link, and the reconciler that passes over
 the same table afterwards.
 */
module LinkEntries {
  import opened Types
  import opened Ports
  import opened Rules
  import opened World
  import opened Handlers
  import opened Entries
  import A = Agreement
  import C = Creation
  import N = NetworkAgreement
  import FF = FaultFree
  import K = Links
  import R = Reconciler

  /** What a network's own reconciliation does to one number, in terms of the driver's maps: a port
      that is nobody's is configured on the network's VLAN, one that is gone is deleted unless it was
      a container's, and everything else stays. */
  lemma ReconciledEntry(s: State, id: Id, scrape: Option<R.PortDesc>, p: nat)
    requires id in s.networks && id in s.mirrors
    ensures var s', net := ReconcileState(s, id, scrape), s.networks[id];
            && id in s'.networks
            && EntryAt(s', id, p) ==
               if scrape.None? || (id in s.cache && scrape.value == s.cache[id]) then EntryAt(s, id, p)
               else
                 var scraped := scrape.value;
                 if p in scraped && p != OF_PORT_LOCAL && p != s.mirrors[id] && !("ods" <= scraped[p])
                    && scraped[p] !in net.physical && scraped[p] !in net.copro
                 then Some(Physical(scraped[p], net.vlan))
                 else if id in s.cache && p in s.cache[id] && p !in scraped && !("odsve" <= s.cache[id][p]) then None
                 else EntryAt(s, id, p)
  {
    var c, v := SettingsOf(s, id), ViewOf(s, id);
    assert scrape == v.cache ==> R.Pass(c, v, scrape) == v;
    assert scrape.None? ==> R.Pass(c, v, scrape) == v;
    if scrape.Some? && scrape != v.cache {
      R.PassEntry(c, v, scrape.value, p);
    }
    hide R.Pass;
  }

  /** And what it does to one name of the network's ExternalPorts, and to its cached scrape. */
  lemma ReconciledExternal(s: State, id: Id, scraped: R.PortDesc, d: string)
    requires id in s.networks && id in s.mirrors && R.Injective(scraped) && !(id in s.cache && s.cache[id] == scraped)
    ensures var s', net := ReconcileState(s, id, Some(scraped)), s.networks[id];
            var cached := if id in s.cache then s.cache[id] else map[];
            var owned := "ods" <= d || d in net.physical || d in net.copro;
            var gone := !("odsve" <= d) && exists q :: q in cached && cached[q] == d && q !in scraped;
            && id in s'.cache && s'.cache[id] == scraped && id in s'.networks
            && var x := s'.networks[id].externals;
               && (forall p :: p in scraped && scraped[p] == d && p != OF_PORT_LOCAL && p != s.mirrors[id] && !owned ==>
                     d in x && x[d] == p)
               && ((forall p :: p in scraped && scraped[p] == d ==> p == OF_PORT_LOCAL || p == s.mirrors[id] || owned) ==>
                     (d in x <==> d in net.externals && !gone) && (d in x ==> x[d] == net.externals[d]))
  {
    var c, v := SettingsOf(s, id), ViewOf(s, id);
    R.PassExternal(c, v, scraped, d);
    R.PassCache(c, v, Some(scraped));
    hide R.Pass, R.Injective;
  }

  /** A port at this number of the network's bridge that the reconciler passes over: one with the
      driver's prefix, or any at the local port or the mirror loopback port. */
  ghost predicate Spared(s: State, id: Id, x: string, p: nat) {
    && id in s.networks && id in s.mirrors
    && x in s.ovs && s.ovs[x] == At(s.networks[id].bridge, p) && !IsContainerPort(x)
    && ("ods" <= x || p == OF_PORT_LOCAL || p == s.mirrors[id])
  }

  ghost predicate SparedThroughout(sys: Sys, events: seq<Event>, id: Id, x: string, p: nat)
    decreases |events|
  {
    && Spared(sys.state, id, x, p)
    && (events != [] ==> SparedThroughout(Next(sys, events[0].op, events[0].luck), events[1..], id, x, p))
  }

  lemma PassSpares(s: State, id: Id, scrape: Option<R.PortDesc>, x: string, p: nat)
    requires Spared(s, id, x, p) && (scrape.Some? ==> IsScrape(s, s.networks[id].bridge, scrape.value))
    ensures id in ReconcileState(s, id, scrape).networks
    ensures EntryAt(ReconcileState(s, id, scrape), id, p) == EntryAt(s, id, p)
  {
    hide ReconcileState, EntryAt;
    ReconciledEntry(s, id, scrape, p);
  }

  /** No endpoint is ever given the number of another port. */
  lemma NotUsed(sys: Sys, op: Op, id: Id, x: string, p: nat)
    requires A.Agree(sys) && Legal(sys, op) && Spared(sys.state, id, x, p)
    ensures !Uses(sys, op, id, p)
  {
    hide A.OwnersOk, A.NetworksOk, Veth;
    if Uses(sys, op, id, p) {
      assert A.EndpointOk(sys, op.endpoint);
      assert sys.state.ovs[Veth(op.endpoint)] == sys.state.ovs[x];
      VethNames(op.endpoint, op.endpoint);
    }
  }

  lemma StepSpares(sys: Sys, op: Op, host: multiset<Rule>, id: Id, x: string, p: nat)
    requires FF.Inv(sys, host) && Legal(sys, op) && op != DeleteNetwork(id) && Spared(sys.state, id, x, p)
    ensures id in Next(sys, op, NoFault).state.networks
    ensures EntryAt(Next(sys, op, NoFault).state, id, p) == EntryAt(sys.state, id, p)
  {
    hide FF.Inv, EntryAt, SettingsOf;
    if op.Reconcile? && op.id == id {
      hide ReconcileState, Spared;
      SparedNetwork(sys.state, id, x, p);
      PassSpares(sys.state, id, op.scrape, x, p);
    } else {
      hide Next;
      assert !Uses(sys, op, id, p) by { InvAgrees(sys, host); NotUsed(sys, op, id, x, p); }
      hide Uses;
      StepEntry(sys, op, host, id, p);
    }
  }

  lemma SparedNetwork(s: State, id: Id, x: string, p: nat)
    requires Spared(s, id, x, p)
    ensures id in s.networks
  {
  }

  lemma InvAgrees(sys: Sys, host: multiset<Rule>)
    requires FF.Inv(sys, host)
    ensures A.Agree(sys)
  {
  }

  /** Over every fault-free run, however often the network is reconciled and whatever the scrapes
      cached before were: while a port that the reconciler passes over is plugged in at a number,
      that number's entry stays what it is. */
  lemma {:induction false} SparedEntryKept(sys: Sys, events: seq<Event>, host: multiset<Rule>, id: Id, x: string, p: nat)
    requires FF.Inv(sys, host) && LegalRun(sys, events) && Handlers.FaultFree(events) && id in sys.state.networks
    requires SparedThroughout(sys, events, id, x, p) && forall i :: 0 <= i < |events| ==> events[i].op != DeleteNetwork(id)
    ensures id in Run(sys, events).state.networks
    ensures EntryAt(Run(sys, events).state, id, p) == EntryAt(sys.state, id, p)
    decreases |events|
  {
    hide FF.Inv, Legal, Next, Spared, EntryAt;
    if events != [] {
      StepSpares(sys, events[0].op, host, id, x, p);
      FF.StepInv(sys, events[0].op, host);
      SparedEntryKept(Next(sys, events[0].op, NoFault), events[1..], host, id, x, p);
    }
  }

  /** The link's entry as creation writes it: what it is, and at which number. */
  lemma CreatedLinkEntry(sys: Sys, id: Id, physical: seq<string>, copro: seq<string>)
    requires Legal(sys, CreateNetwork(id, physical, copro))
    requires forall x :: x in physical + copro + LinkEnds(sys.state.links, sys.docker.nets[id].network) ==> x in sys.state.ovs
    ensures var s, s' := sys.state, Next(sys, CreateNetwork(id, physical, copro), NoFault).state;
            var r := sys.docker.nets[id];
            && id in s'.networks && id in s'.mirrors && s'.mirrors[id] == r.lbPort
            && (s.links.MirrorLinks? ==> EntryAt(s', id, r.lbPort) == Some(MirrorOut))
            && (s.links.StackLinks? ==>
                  && r.network.near in s.ovs && r.network.far in s.ovs
                  && EntryAt(s', id, s.ovs[r.network.near].port) == Some(StackLink(s.links.dp, s.ovs[r.network.far].port)))
  {
    var s, net, lb := sys.state, sys.docker.nets[id].network, sys.docker.nets[id].lbPort;
    var s' := Exec(s, CreateScript(s, id, net, lb, physical, copro), NoFault).state;
    assert Next(sys, CreateNetwork(id, physical, copro), NoFault).state == s';
    assert s.links.StackLinks? ==> net.near in LinkEnds(s.links, net) && net.far in LinkEnds(s.links, net);
    hide Exec, CreateScript, LinkEnds, Legal;
    C.CreateTheorem(s, id, net, lb, physical, copro);
    N.CreateResult(s, id, net, lb, physical, copro, NoFault);
    CreatedRecord(s, s', id, net, lb);
    C.SpecialConfigured(s.ovs, s.links, net, lb, physical, copro, 0);
    hide CreateIfaces, N.Filled, Perform, Table, UsedPorts, Scan, Window;
  }

  lemma CreatedRecord(s: State, s': State, id: Id, net: Network, lb: nat)
    requires N.Filled(Perform(s, RecordNetwork(id, net, lb)), s', id, net.name)
    ensures id in s'.networks && s'.networks[id].name == net.name && s'.networks[id].bridge == net.bridge
    ensures id in s'.mirrors && s'.mirrors[id] == lb && s'.ovs == s.ovs
  {
    assert Perform(s, RecordNetwork(id, net, lb)) == s.(mirrors := s.mirrors[id := lb], networks := s.networks[id := net]);
    hide Perform, Table;
  }

  /** The entry of a network's link survives: from its creation through every fault-free run, while
      the network's end of the link is plugged in where it was, the controller has the output port
      of the mirror, or the stack link to the other end's number, that creation wrote. */
  lemma LinkEntryTheorem(sys: Sys, events: seq<Event>, host: multiset<Rule>, id: Id, physical: seq<string>, copro: seq<string>, p: nat)
    requires FF.Inv(sys, host) && Legal(sys, CreateNetwork(id, physical, copro)) && !sys.state.links.NoLinks?
    requires forall x :: x in physical + copro + LinkEnds(sys.state.links, sys.docker.nets[id].network) ==> x in sys.state.ovs
    requires sys.docker.nets[id].network.near in sys.state.ovs && sys.state.ovs[sys.docker.nets[id].network.near].port == p
    requires sys.state.links.MirrorLinks? ==> p == sys.docker.nets[id].lbPort
    requires var sys1 := Next(sys, CreateNetwork(id, physical, copro), NoFault);
             && LegalRun(sys1, events) && Handlers.FaultFree(events)
             && (forall i :: 0 <= i < |events| ==> events[i].op != DeleteNetwork(id))
             && SparedThroughout(sys1, events, id, sys.docker.nets[id].network.near, p)
    ensures var s' := Run(Next(sys, CreateNetwork(id, physical, copro), NoFault), events).state;
            var far := sys.docker.nets[id].network.far;
            && id in s'.networks
            && (sys.state.links.MirrorLinks? ==> EntryAt(s', id, p) == Some(MirrorOut))
            && (sys.state.links.StackLinks? ==>
                  far in sys.state.ovs && EntryAt(s', id, p) == Some(StackLink(sys.state.links.dp, sys.state.ovs[far].port)))
  {
    var op := CreateNetwork(id, physical, copro);
    CreatedLinkEntry(sys, id, physical, copro);
    FF.StepInv(sys, op, host);
    hide Next, FF.Inv, Legal, LinkEnds, EntryAt;
    SparedEntryKept(Next(sys, op, NoFault), events, host, id, sys.docker.nets[id].network.near, p);
  }

  // -------------------------------------------------------------------------------------
  // The number that is configured, and the number the link has

  /** Over every run of the shared bridges, in mirror mode: creation configures the output port of the
      mirror at the number that the network's end of the mirror link has, exactly if the wanted number
      was free when the bridge was initialised.  Otherwise mirrored traffic leaves by another port. */
  lemma MirrorOutAtEndIff(o: K.Options, f0: K.Fabric, ops: seq<K.Op>, n: Id, net: Network, physical: seq<string>, copro: seq<string>)
    requires K.OptionsOk(o) && f0.live == map[] && Numbered(f0.ovs) && K.Distinguishes(o, K.SharedBridges(o))
    requires K.LegalRun(o, f0, ops) && n in K.Run(o, f0, ops).live && |o.mirrorBridgeOut| != 0
    requires net.bridge == K.Run(o, f0, ops).live[n].bridge && net.near == o.patch(net.bridge, o.mirrorBridge)
    ensures var f := K.Run(o, f0, ops);
            var t := CreateIfaces(f.ovs, MirrorLinks, net, f.live[n].lbPort, physical, copro);
            && net.near in f.ovs && f.ovs[net.near].bridge == net.bridge
            && (f.ovs[net.near].port in t && t[f.ovs[net.near].port] == MirrorOut <==>
                  f.live[n].lbPort != 0 && f.live[n].lbPort !in f.live[n].taken)
  {
    hide K.Run, K.LegalRun, K.Distinguishes, Numbered, K.Tagged, CreateIfaces;
    K.LinksTheorem(o, f0, ops);
    var f := K.Run(o, f0, ops);
    assert K.EndNumbers(o, f.ovs, f.live[n]) && K.Linked(o, f.ovs, net.bridge);
    K.PeersIff(o);
    hide K.Peers, K.EndsOwned, K.BaseKept;
    MirrorOutAt(f.ovs, net, f.live[n].lbPort, physical, copro, f.ovs[net.near].port);
  }

  lemma MirrorOutAt(ovs: map<string, Attachment>, net: Network, lb: nat, physical: seq<string>, copro: seq<string>, p: nat)
    ensures var t := CreateIfaces(ovs, MirrorLinks, net, lb, physical, copro); p in t && t[p] == MirrorOut <==> p == lb
  {
    C.NoGateways(ovs, net, physical, copro);
    hide PhysicalIfaces, CoproIfaces, Scan, UsedPorts, Window;
  }

  /** And in stacking mode: at the least number that was free on the bridge, leading to the number that
      the other end has on the stacking bridge. */
  lemma StackLinkAtEnd(o: K.Options, f0: K.Fabric, ops: seq<K.Op>, n: Id, net: Network, physical: seq<string>, copro: seq<string>)
    requires K.OptionsOk(o) && f0.live == map[] && Numbered(f0.ovs) && K.Distinguishes(o, K.SharedBridges(o))
    requires K.LegalRun(o, f0, ops) && n in K.Run(o, f0, ops).live
    requires |o.mirrorBridgeOut| == 0 && |o.stackingInterfaces| >= 1 && |o.stackingInterfaces[0]| != 0
    requires net.bridge == K.Run(o, f0, ops).live[n].bridge
    requires net.near == o.patch(net.bridge, o.stackDp) && net.far == o.patch(o.stackDp, net.bridge)
    ensures var f := K.Run(o, f0, ops);
            var t := CreateIfaces(f.ovs, StackLinks(o.stackDp), net, f.live[n].lbPort, physical, copro);
            && net.near in f.ovs && f.ovs[net.near].bridge == net.bridge && net.far in f.ovs && f.ovs[net.far].bridge == o.stackDp
            && IsLeastFree(f.live[n].taken, f.ovs[net.near].port)
            && f.ovs[net.near].port in t && t[f.ovs[net.near].port] == StackLink(o.stackDp, f.ovs[net.far].port)
  {
    hide K.Run, K.LegalRun, K.Distinguishes, Numbered, K.Tagged, CreateIfaces, IsLeastFree;
    K.LinksTheorem(o, f0, ops);
    var f := K.Run(o, f0, ops);
    assert K.EndNumbers(o, f.ovs, f.live[n]) && K.Linked(o, f.ovs, net.bridge);
    K.PeersIff(o);
    hide K.Peers, K.EndsOwned, K.BaseKept;
    C.SpecialConfigured(f.ovs, StackLinks(o.stackDp), net, f.live[n].lbPort, physical, copro, 0);
    hide Scan, UsedPorts, Window;
  }
}
