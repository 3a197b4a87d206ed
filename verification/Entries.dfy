/** What each operation of a fault-free run does to one number of one network's interface table. */
module Entries {
  import opened Types
  import opened Rules
  import opened World
  import opened Handlers
  import Faults
  import A = Agreement
  import N = NetworkAgreement
  import K = Conservation
  import FF = FaultFree
  import R = Reconciler

  /** What the controller has for this network at this number. */
  function EntryAt(s: State, id: Id, p: nat): Option<Iface>
    requires id in s.networks
  {
    var table := Table(s, s.networks[id].name);
    if p in table then Some(table[p]) else None
  }

  /** The scrape this network's next one is compared with. */
  function Cached(s: State, id: Id): R.PortDesc
    requires id in s.networks
  {
    R.CachedOr(ViewOf(s, id).cache)
  }

  /** A join or a leave of an endpoint reserved at this number. */
  ghost predicate Uses(sys: Sys, op: Op, id: Id, p: nat) {
    (op.JoinContainer? || op.LeaveContainer?) && op.id == id && op.endpoint in sys.state.ofPorts && sys.state.ofPorts[op.endpoint].port == p
  }

  /** What the reconciler goes by is the same in both states. */
  ghost predicate SameView(s: State, s': State, id: Id)
    requires id in s.networks
  {
    && id in s'.networks && SettingsOf(s', id) == SettingsOf(s, id) && s'.networks[id].name == s.networks[id].name
    && (id in s'.cache <==> id in s.cache) && (id in s.cache ==> s'.cache[id] == s.cache[id])
  }

  /** The entry is replaced by a container's, or deleted; or it is untouched. */
  ghost predicate EntryEffect(s: State, s': State, id: Id, p: nat, used: bool)
    requires id in s.networks
  {
    && SameView(s, s', id)
    && if used then EntryAt(s', id, p).Some? ==> EntryAt(s', id, p).value.Container? else EntryAt(s', id, p) == EntryAt(s, id, p)
  }

  /** A change that leaves a network's record, its mirror port, its cached scrape and its table alone. */
  lemma Untouched(s: State, s': State, id: Id, p: nat)
    requires id in s.networks && id in s'.networks && s'.networks[id] == s.networks[id]
    requires id in s.mirrors <==> id in s'.mirrors
    requires id in s.mirrors ==> s'.mirrors[id] == s.mirrors[id]
    requires s'.cache == s.cache && Table(s', s.networks[id].name) == Table(s, s.networks[id].name)
    ensures EntryEffect(s, s', id, p, false)
  {
    hide Table;
  }

  lemma OtherPass(s: State, n: Id, scrape: Option<R.PortDesc>, id: Id, p: nat)
    requires id in s.networks && (n in s.networks ==> n != id && s.networks[n].name != s.networks[id].name)
    ensures EntryEffect(s, ReconcileState(s, n, scrape), id, p, false)
  {
    hide R.Pass;
  }

  lemma JoinedEntry(s: State, n: Id, e: Id, j: Joined, id: Id, p: nat)
    requires id in s.networks && n in s.networks && e in s.ofPorts && (n != id ==> s.networks[n].name != s.networks[id].name)
    ensures EntryEffect(s, A.JoinedState(s, n, e, j), id, p, n == id && s.ofPorts[e].port == p)
  {
    hide JoinRules;
  }

  lemma JoinEntry(sys: Sys, n: Id, e: Id, j: Joined, id: Id, p: nat)
    requires A.Agree(sys) && Legal(sys, JoinContainer(n, e, j)) && id in sys.state.networks
    ensures var op := JoinContainer(n, e, j);
            EntryEffect(sys.state, Next(sys, op, NoFault).state, id, p, Uses(sys, op, id, p))
  {
    hide Exec, JoinScript, JoinRules, Veth, A.OwnersOk, OvsOk, A.JoinedState, EntryEffect;
    assert A.EndpointOk(sys, e);
    hide A.EndpointsOk;
    A.JoinResult(sys.state, n, e, j);
    if n != id {
      A.NamesDiffer(sys, n, id);
    }
    hide A.NetworksOk;
    JoinedEntry(sys.state, n, e, j, id, p);
  }

  lemma LeftEntry(s: State, n: Id, e: Id, j: Joined, id: Id, p: nat)
    requires id in s.networks && n in s.networks && e in s.ofPorts && (n != id ==> s.networks[n].name != s.networks[id].name)
    requires Veth(e) in s.ovs && s.ovs[Veth(e)].port == s.ofPorts[e].port
    ensures EntryEffect(s, A.LeftState(s, n, e, j), id, p, n == id && s.ofPorts[e].port == p)
  {
    hide JoinRules, Veth, RemoveEach;
  }

  lemma LeaveEntry(sys: Sys, host: multiset<Rule>, n: Id, e: Id, id: Id, p: nat)
    requires FF.Inv(sys, host) && Legal(sys, LeaveContainer(n, e)) && id in sys.state.networks
    ensures var op := LeaveContainer(n, e);
            EntryEffect(sys.state, Next(sys, op, NoFault).state, id, p, Uses(sys, op, id, p))
  {
    hide Exec, LeaveScript, JoinRules, Veth, A.OwnersOk, OvsOk, A.LeftState, EntryEffect;
    assert A.EndpointOk(sys, e);
    hide A.EndpointsOk;
    K.JoinRulesPresent(sys, n, e, host);
    hide K.Conserved;
    A.LeaveResult(sys.state, n, e);
    if n != id {
      A.NamesDiffer(sys, n, id);
    }
    hide A.NetworksOk;
    LeftEntry(sys.state, n, e, sys.state.ofPorts[e].joined.value, id, p);
  }

  lemma CreateEntry(sys: Sys, n: Id, physical: seq<string>, copro: seq<string>, id: Id, p: nat)
    requires A.NetworksOk(sys) && Legal(sys, CreateNetwork(n, physical, copro)) && id in sys.state.networks
    ensures EntryEffect(sys.state, Next(sys, CreateNetwork(n, physical, copro), NoFault).state, id, p, false)
  {
    hide Exec, CreateScript, Lists, N.Filled, Perform, EntryEffect;
    var s, sys' := sys.state, Next(sys, CreateNetwork(n, physical, copro), NoFault);
    N.CreateResult(s, n, sys.docker.nets[n].network, sys.docker.nets[n].lbPort, physical, copro, NoFault);
    assert N.Creates(sys, sys', n);
    N.NamesApart(sys, n, id);
    hide A.NetworksOk, Next;
    N.CreateShape(sys, sys', n);
    N.CreateTables(sys, sys', n, s.networks[id].name);
    CreateCache(sys, sys', n);
    hide Table;
    Untouched(s, sys'.state, id, p);
  }

  lemma CreateCache(sys: Sys, sys': Sys, n: Id)
    requires N.Creates(sys, sys', n)
    ensures sys'.state.cache == sys.state.cache
  {
    hide Table, WithoutBridge;
  }

  lemma DeleteEntry(sys: Sys, host: multiset<Rule>, n: Id, id: Id, p: nat)
    requires FF.Inv(sys, host) && Legal(sys, DeleteNetwork(n)) && id in sys.state.networks && n != id
    ensures EntryEffect(sys.state, Next(sys, DeleteNetwork(n), NoFault).state, id, p, false)
  {
    hide Exec, DeleteScript, OvsOk, A.EndpointsOk, A.OwnersOk, EntryEffect;
    K.NatRulePresent(sys, n, host);
    hide K.Conserved;
    NetworkKnown(sys, n);
    N.DeleteResult(sys.state, n);
    A.NamesDiffer(sys, n, id);
    hide A.NetworksOk, N.DeletedState;
    DeletedEntry(sys.state, n, id, p);
  }

  lemma NetworkKnown(sys: Sys, n: Id)
    requires A.NetworksOk(sys) && n in sys.docker.nets && sys.docker.nets[n].created
    ensures n in sys.state.networks && sys.state.networks[n].bridge in sys.state.bridges
  {
  }

  lemma DeletedEntry(s: State, n: Id, id: Id, p: nat)
    requires id in s.networks && n in s.networks && n != id && s.networks[n].name != s.networks[id].name
    ensures EntryEffect(s, N.DeletedState(s, n), id, p, false)
  {
    var s' := N.DeletedState(s, n);
    assert Table(s', s.networks[id].name) == Table(s, s.networks[id].name);
    hide RemoveFirst, WithoutBridge, Table, EntryEffect;
    Untouched(s, s', id, p);
  }

  lemma ReserveEntry(sys: Sys, n: Id, e: Id, id: Id, p: nat)
    requires id in sys.state.networks
    ensures EntryEffect(sys.state, Next(sys, ReservePort(n, e), NoFault).state, id, p, false)
  {
    hide Exec, ReserveScript, Veth, EntryEffect;
    Faults.ReserveOutcomes(sys.state, n, e, NoFault);
    Untouched(sys.state, Next(sys, ReservePort(n, e), NoFault).state, id, p);
  }

  lemma DhcpEntry(s: State, n: Id, e: Id, hostIP: string, id: Id, p: nat)
    requires id in s.networks
    ensures EntryEffect(s, DhcpState(s, n, e, hostIP), id, p, false)
  {
    var s' := DhcpState(s, n, e, hostIP);
    if n == id && e in s.networks[id].containers {
      LeasedEntry(s, s', id, p);
    } else {
      assert s'.networks[id] == s.networks[id];
      assert Table(s', s.networks[id].name) == Table(s, s.networks[id].name);
      hide DhcpState, Table, EntryEffect;
      Untouched(s, s', id, p);
    }
  }

  lemma LeasedEntry(s: State, s': State, id: Id, p: nat)
    requires id in s.networks && id in s'.networks && s' == s.(networks := s'.networks)
    requires s'.networks[id] == s.networks[id].(containers := s'.networks[id].containers)
    ensures EntryEffect(s, s', id, p, false)
  {
    assert Table(s', s.networks[id].name) == Table(s, s.networks[id].name);
    hide Table;
  }

  lemma HostEntry(s: State, s': State, id: Id, p: nat)
    requires id in s.networks && s' == s.(bridges := s'.bridges, ovs := s'.ovs, rules := s'.rules)
    ensures EntryEffect(s, s', id, p, false)
  {
    hide EntryEffect;
    Untouched(s, s', id, p);
  }

  /** Of all operations that leave the network in place, only its own joins, leaves and
      reconciliations touch its table, and a join or leave touches its own number only. */
  lemma StepEntry(sys: Sys, op: Op, host: multiset<Rule>, id: Id, p: nat)
    requires FF.Inv(sys, host) && Legal(sys, op) && id in sys.state.networks
    requires op != DeleteNetwork(id) && !(op.Reconcile? && op.id == id)
    ensures EntryEffect(sys.state, Next(sys, op, NoFault).state, id, p, Uses(sys, op, id, p))
  {
    hide A.NetworksOk, A.EndpointsOk, A.OwnersOk, K.Conserved, OvsOk, EntryEffect;
    match op
    case InitBridge(n, net, lb, attached) => HostEntry(sys.state, Next(sys, op, NoFault).state, id, p);
    case CreateNetwork(n, physical, copro) => CreateEntry(sys, n, physical, copro, id, p);
    case DeleteNetwork(n) => DeleteEntry(sys, host, n, id, p);
    case ReservePort(n, e) => ReserveEntry(sys, n, e, id, p);
    case JoinContainer(n, e, j) => JoinEntry(sys, n, e, j, id, p);
    case LeaveContainer(n, e) => LeaveEntry(sys, host, n, e, id, p);
    case Reconcile(n, scrape) => OthersPass(sys, n, scrape, id, p);
    case DhcpUpdate(n, e, hostIP) => DhcpEntry(sys.state, n, e, hostIP, id, p);
    case Plug(_, _, _) => HostEntry(sys.state, Next(sys, op, NoFault).state, id, p);
    case Unplug(_) => HostEntry(sys.state, Next(sys, op, NoFault).state, id, p);
  }

  lemma OthersPass(sys: Sys, n: Id, scrape: Option<R.PortDesc>, id: Id, p: nat)
    requires A.NetworksOk(sys) && id in sys.state.networks && n != id
    ensures EntryEffect(sys.state, ReconcileState(sys.state, n, scrape), id, p, false)
  {
    hide EntryEffect, ReconcileState;
    if n in sys.state.networks {
      A.NamesDiffer(sys, n, id);
    }
    OtherPass(sys.state, n, scrape, id, p);
  }

  /** What the network's own reconciliation does to one number. */
  lemma OwnPass(s: State, scrape: Option<R.PortDesc>, id: Id, p: nat)
    requires id in s.networks
    ensures var s', c, cached := ReconcileState(s, id, scrape), SettingsOf(s, id), Cached(s, id);
            && id in s'.networks && SettingsOf(s', id) == c
            && ViewOf(s', id).cache == (if scrape.Some? then scrape else ViewOf(s, id).cache)
            && EntryAt(s', id, p) ==
               if scrape.None? || scrape == ViewOf(s, id).cache then EntryAt(s, id, p)
               else if R.Wants(c, scrape.value, p) then Some(Physical(scrape.value[p], c.vlan))
               else if R.Gone(cached, scrape.value, p) then None
               else EntryAt(s, id, p)
  {
    var c, v := SettingsOf(s, id), ViewOf(s, id);
    R.PassCache(c, v, scrape);
    if scrape.Some? && scrape != v.cache {
      R.PassAt(c, v, scrape.value, p);
    }
    hide R.Wants, R.Gone;
  }
}
