/** The theorems about whole fault-free runs, from a driver that has just started. */
module FaultFree {
  import opened Types
  import opened Rules
  import opened World
  import opened Handlers
  import opened Agreement
  import opened NetworkAgreement
  import opened Conservation
  import R = Reconciler

  ghost predicate Inv(sys: Sys, base: multiset<Rule>) {
    Agree(sys) && Conserved(sys, base)
  }

  /** The handlers for endpoints and for deletion never panic of themselves. */
  ghost predicate Finishes(sys: Sys, op: Op) {
    op.DeleteNetwork? || op.ReservePort? || op.JoinContainer? || op.LeaveContainer? ==>
      Exec(sys.state, Script(sys, op), NoFault).completed
  }

  lemma ReserveInv(sys: Sys, id: Id, e: Id, base: multiset<Rule>)
    requires Inv(sys, base) && Legal(sys, ReservePort(id, e))
    ensures Inv(Next(sys, ReservePort(id, e), NoFault), base) && Finishes(sys, ReservePort(id, e))
  {
    hide NetworksOk, OvsOk, OwnersOk, EndpointsOk, Conserved, FreshEndpoint;
    ReserveResult(sys, id, e);
    ReserveAgrees(sys, id, e);
    ReserveConserves(sys, id, e, base);
  }

  lemma JoinInv(sys: Sys, id: Id, e: Id, j: Joined, base: multiset<Rule>)
    requires Inv(sys, base) && Legal(sys, JoinContainer(id, e, j))
    ensures Inv(Next(sys, JoinContainer(id, e, j), NoFault), base) && Finishes(sys, JoinContainer(id, e, j))
  {
    hide NetworksOk, OvsOk, OwnersOk, Conserved, JoinScript, JoinedState, Exec, Veth;
    var sys' := Next(sys, JoinContainer(id, e, j), NoFault);
    assert EndpointOk(sys, e);
    JoinAgrees(sys, id, e, j);
    JoinResult(sys.state, id, e, j);
    JoinConserves(sys, sys', id, e, j, base);
  }

  lemma LeaveInv(sys: Sys, id: Id, e: Id, base: multiset<Rule>)
    requires Inv(sys, base) && Legal(sys, LeaveContainer(id, e))
    ensures Inv(Next(sys, LeaveContainer(id, e), NoFault), base) && Finishes(sys, LeaveContainer(id, e))
    ensures id in sys.state.networks && e in sys.state.ofPorts
    ensures GoneEverywhere(sys.state, Next(sys, LeaveContainer(id, e), NoFault).state, id, e)
  {
    hide NetworksOk, OvsOk, OwnersOk, Conserved, LeaveScript, LeftState, Exec, Veth;
    var sys' := Next(sys, LeaveContainer(id, e), NoFault);
    assert EndpointOk(sys, e);
    JoinRulesPresent(sys, id, e, base);
    LeaveAgrees(sys, id, e);
    LeaveStep(sys, id, e);
    LeaveConserves(sys, sys', id, e, base);
  }

  lemma CreateInv(sys: Sys, id: Id, physical: seq<string>, copro: seq<string>, base: multiset<Rule>)
    requires Inv(sys, base) && Legal(sys, CreateNetwork(id, physical, copro))
    ensures Inv(Next(sys, CreateNetwork(id, physical, copro), NoFault), base)
  {
    hide NetworksOk, OvsOk, OwnersOk, EndpointsOk, Conserved, CreateScript, Exec, Filled, Lists;
    var net, lb := sys.docker.nets[id].network, sys.docker.nets[id].lbPort;
    var sys' := Next(sys, CreateNetwork(id, physical, copro), NoFault);
    CreateAgrees(sys, id, physical, copro);
    CreateResult(sys.state, id, net, lb, physical, copro, NoFault);
    CreateConserves(sys, sys', id, base);
  }

  lemma DeleteInv(sys: Sys, id: Id, base: multiset<Rule>)
    requires Inv(sys, base) && Legal(sys, DeleteNetwork(id))
    ensures Inv(Next(sys, DeleteNetwork(id), NoFault), base) && Finishes(sys, DeleteNetwork(id))
  {
    hide OvsOk, OwnersOk, EndpointsOk, Conserved, DeleteScript, Exec, DeletedState;
    var sys' := Next(sys, DeleteNetwork(id), NoFault);
    NatRulePresent(sys, id, base);
    DeleteAgrees(sys, id);
    DeleteResult(sys.state, id);
    DeleteConserves(sys, sys', id, base);
  }

  lemma InitInv(sys: Sys, id: Id, net: Network, lb: nat, attached: map<string, nat>, base: multiset<Rule>)
    requires Inv(sys, base) && Legal(sys, InitBridge(id, net, lb, attached))
    ensures Inv(Next(sys, InitBridge(id, net, lb, attached), NoFault), base)
  {
    hide NetworksOk, OvsOk, OwnersOk, EndpointsOk, Conserved, AttachedOk;
    InitAgrees(sys, id, net, lb, attached);
    InitConserves(sys, id, net, lb, attached, base);
  }

  /** Operations that neither add nor delete rules, nor change who is owed any. */
  lemma QuietConserves(sys: Sys, sys': Sys, base: multiset<Rule>)
    requires Conserved(sys, base) && EndpointsOk(sys)
    requires sys'.docker == sys.docker && SameBridges(sys.state, sys'.state) && sys'.state.rules == sys.state.rules
    ensures Conserved(sys', base)
  {
    hide EndpointsOk, Conserved, EndpointRules;
    EndpointClaimsFrame(sys, sys');
    SameClaims(sys, sys', base);
  }

  lemma ReconcileInv(sys: Sys, id: Id, scrape: Option<R.PortDesc>, base: multiset<Rule>)
    requires Inv(sys, base) && Legal(sys, Reconcile(id, scrape))
    ensures Inv(Next(sys, Reconcile(id, scrape), NoFault), base)
  {
    hide NetworksOk, OvsOk, OwnersOk, EndpointsOk, Conserved, ReconcileState, IsScrape;
    var sys' := Next(sys, Reconcile(id, scrape), NoFault);
    ReconcileAgrees(sys, id, scrape);
    ReconcileQuiet(sys.state, id, scrape);
    QuietConserves(sys, sys', base);
  }

  lemma ReconcileQuiet(s: State, id: Id, scrape: Option<R.PortDesc>)
    ensures SameBridges(s, ReconcileState(s, id, scrape)) && ReconcileState(s, id, scrape).rules == s.rules
  {
    if id in s.networks {
      ReconcileShape(s, id, scrape);
    }
  }

  lemma HostInv(sys: Sys, op: Op, base: multiset<Rule>)
    requires Inv(sys, base) && Legal(sys, op) && (op.DhcpUpdate? || op.Plug? || op.Unplug?)
    ensures Inv(Next(sys, op, NoFault), base)
  {
    hide NetworksOk, OvsOk, OwnersOk, EndpointsOk, Conserved;
    match op {
      case DhcpUpdate(id, e, hostIP) => DhcpAgrees(sys, id, e, hostIP);
      case Plug(name, b, p) => PlugAgrees(sys, name, b, p);
      case Unplug(name) => UnplugAgrees(sys, name);
    }
    QuietConserves(sys, Next(sys, op, NoFault), base);
  }

  lemma StepInv(sys: Sys, op: Op, base: multiset<Rule>)
    requires Inv(sys, base) && Legal(sys, op)
    ensures Inv(Next(sys, op, NoFault), base) && Finishes(sys, op)
  {
    hide Inv, Legal, Next;
    match op
    case InitBridge(id, net, lb, attached) => InitInv(sys, id, net, lb, attached, base);
    case CreateNetwork(id, physical, copro) => CreateInv(sys, id, physical, copro, base);
    case DeleteNetwork(id) => DeleteInv(sys, id, base);
    case ReservePort(id, e) => ReserveInv(sys, id, e, base);
    case JoinContainer(id, e, j) => JoinInv(sys, id, e, j, base);
    case LeaveContainer(id, e) => LeaveInv(sys, id, e, base);
    case Reconcile(id, scrape) => ReconcileInv(sys, id, scrape, base);
    case _ => HostInv(sys, op, base);
  }

  ghost predicate AllFinish(sys: Sys, events: seq<Event>)
    decreases |events|
  {
    events != [] ==>
      Finishes(sys, events[0].op) && AllFinish(Next(sys, events[0].op, events[0].luck), events[1..])
  }

  lemma {:induction false} RunInv(sys: Sys, events: seq<Event>, base: multiset<Rule>)
    requires Inv(sys, base) && LegalRun(sys, events) && FaultFree(events)
    ensures Inv(Run(sys, events), base) && AllFinish(sys, events)
    decreases |events|
  {
    hide Inv, Legal, Next, Finishes;
    if events != [] {
      assert events[0].luck == NoFault;
      StepInv(sys, events[0].op, base);
      RunInv(Next(sys, events[0].op, NoFault), events[1..], base);
    }
  }

  lemma InitialInv(sys: Sys)
    requires Initial(sys)
    ensures Inv(sys, multiset(sys.state.rules))
  {
    InitialAgrees(sys);
    var c := ClaimsOf(sys);
    assert c.eps == map[] && c.nats == map[];
    forall r ensures Owed(c, r) == 0 {
      assert EndpointClaims(c.eps, r) == {} && NatClaims(c.nats, r) == {};
    }
  }

  /** Every state reached without faults, over any interleaving: the records of every endpoint
      agree, nothing belongs to an endpoint that is not live, the rules balance, and no
      endpoint or deletion handler panicked on the way. */
  lemma FaultFreeTheorem(sys: Sys, events: seq<Event>)
    requires Initial(sys) && LegalRun(sys, events) && FaultFree(events)
    ensures Agree(Run(sys, events))
    ensures Conserved(Run(sys, events), multiset(sys.state.rules))
    ensures AllFinish(sys, events)
  {
    InitialInv(sys);
    RunInv(sys, events, multiset(sys.state.rules));
  }

  /** What the theorem says about two live endpoints of one network. */
  lemma LivePortsDistinct(sys: Sys, events: seq<Event>, e: Id, e': Id)
    requires Initial(sys) && LegalRun(sys, events) && FaultFree(events)
    requires var d := Run(sys, events).docker;
             e in d.eps && e' in d.eps && e != e' && d.eps[e].network == d.eps[e'].network
    ensures var s := Run(sys, events).state;
            e in s.ofPorts && e' in s.ofPorts && s.ofPorts[e].port != s.ofPorts[e'].port
  {
    FaultFreeTheorem(sys, events);
    var last := Run(sys, events);
    assert EndpointOk(last, e) && EndpointOk(last, e');
    PortsDiffer(last, e, e');
  }

  // -------------------------------------------------------------------------------------
  // Exact conditions at the edges

  /** Rebuilding a bridge that lost its address deletes the bridge and initialises it again,
      which inserts the masquerading rule a second time: the books balance exactly when the
      network is not a NAT network. */
  lemma RecreateBadBridgeBalancesIff(sys: Sys, id: Id, attached: map<string, nat>, base: multiset<Rule>)
    requires Conserved(sys, base) && EndpointsOk(sys) && id in sys.docker.nets
    ensures var net := sys.docker.nets[id].network;
            var s' := InitState(Perform(sys.state, DelBridge(net.bridge)), net, attached);
            Conserved(sys.(state := s'), base) <==> net.mode != Nat
  {
    var net := sys.docker.nets[id].network;
    var s' := InitState(Perform(sys.state, DelBridge(net.bridge)), net, attached);
    var sys' := sys.(state := s');
    hide Owed;
    EndpointClaimsFrame(sys, sys');
    hide EndpointsOk, EndpointRules;
    assert ClaimsOf(sys') == ClaimsOf(sys);
    if net.mode == Nat {
      var r := MasqueradeOut(net.cidr);
      assert multiset(s'.rules)[r] == multiset(sys.state.rules)[r] + 1;
    }
  }
}
