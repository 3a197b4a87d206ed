/** Networks, the reconciler and the host under faults, and the theorem about faulty runs. */
module FaultyRuns {
  import opened Types
  import opened Ports
  import opened Rules
  import opened World
  import opened Handlers
  import Labels
  import opened Faults
  import A = Agreement
  import N = NetworkAgreement
  import R = Reconciler

  /** A change that makes no new reservation, container entry or container port. */
  ghost predicate Calm(s: State, s': State) {
    && s'.ofPorts == s.ofPorts
    && MirrorsKnown(s')
    && OvsOk(s')
    && (forall n, e :: n in s'.networks && e in s'.networks[n].containers ==>
          n in s.networks && e in s.networks[n].containers
          && s'.networks[n].containers[e].port == s.networks[n].containers[e].port)
    && (forall name :: name in s'.ovs && IsContainerPort(name) ==> name in s.ovs && s'.ovs[name] == s.ovs[name])
  }

  ghost predicate UncreatedAbsent(sys: Sys) {
    forall n :: n in sys.docker.nets && !sys.docker.nets[n].created ==>
      n !in sys.state.networks && sys.docker.nets[n].network.containers == map[]
  }

  lemma CalmSurvives(sys: Sys, sys': Sys)
    requires Survives(sys) && Calm(sys.state, sys'.state) && sys'.docker.eps == sys.docker.eps && UncreatedAbsent(sys')
    ensures Survives(sys')
  {
    CalmNumbers(sys, sys');
    StaysBacked(sys.state, sys'.state) by { hide Veth, IsContainerPort, OvsOk; }
    hide Veth, IsContainerPort, OvsOk, LiveNumbers, ContainersMatch, MirrorsKnown, Backed;
  }

  lemma CalmNumbers(sys: Sys, sys': Sys)
    requires LiveNumbers(sys) && ContainersMatch(sys.state) && Calm(sys.state, sys'.state) && sys'.docker.eps == sys.docker.eps
    ensures LiveNumbers(sys') && ContainersMatch(sys'.state)
  {
    forall e ensures IsContainerPort(Veth(e)) {
      VethNames(e, e);
    }
    hide Veth, IsContainerPort, OvsOk, MirrorsKnown;
  }

  // Create

  lemma CreateSurvives(sys: Sys, id: Id, physical: seq<string>, copro: seq<string>, luck: Luck)
    requires Survives(sys) && Legal(sys, CreateNetwork(id, physical, copro))
    ensures Survives(Next(sys, CreateNetwork(id, physical, copro), luck))
    ensures Calm(sys.state, Next(sys, CreateNetwork(id, physical, copro), luck).state)
  {
    hide LiveNumbers, ContainersMatch, Exec, CreateScript, Lists, Calm, OvsOk, Veth, IsContainerPort;
    var s := sys.state;
    var net, lb := sys.docker.nets[id].network, sys.docker.nets[id].lbPort;
    var sys' := Next(sys, CreateNetwork(id, physical, copro), luck);
    N.CreateResult(s, id, net, lb, physical, copro, luck);
    if luck == FaultAfter(0) {
      SameIsCalm(sys);
    } else {
      SupportedOvs(sys);
      CreatedIsCalm(s, sys'.state, id, net, lb);
    }
    CalmSurvives(sys, sys');
  }

  lemma SameIsCalm(sys: Sys)
    requires Survives(sys)
    ensures Calm(sys.state, sys.state)
  {
  }

  lemma CreatedIsCalm(s: State, s': State, id: Id, net: Network, lb: nat)
    requires MirrorsKnown(s) && OvsOk(s) && net.containers == map[]
    requires N.Filled(Perform(s, RecordNetwork(id, net, lb)), s', id, net.name)
    ensures Calm(s, s') && s'.networks.Keys == s.networks.Keys + {id}
  {
    var s1 := s.(mirrors := s.mirrors[id := lb], networks := s.networks[id := net]);
    assert Perform(s, RecordNetwork(id, net, lb)) == s1;
    hide Perform, Calm, N.Filled;
    FilledFacts(s1, s', id, net.name);
    NewNetworkIsCalm(s, s', id, net, lb);
  }

  lemma NewNetworkIsCalm(s: State, s': State, id: Id, net: Network, lb: nat)
    requires MirrorsKnown(s) && OvsOk(s) && net.containers == map[]
    requires s'.ofPorts == s.ofPorts && s'.mirrors == s.mirrors[id := lb] && s'.ovs == s.ovs && s'.bridges == s.bridges
    requires s'.networks.Keys == s.networks.Keys + {id}
    requires forall n :: n in s'.networks ==> s'.networks[n].containers == if n == id then map[] else s.networks[n].containers
    ensures Calm(s, s')
  {
    hide IsContainerPort;
  }

  lemma FilledFacts(s: State, s': State, id: Id, dp: string)
    requires N.Filled(s, s', id, dp)
    ensures s'.ofPorts == s.ofPorts && s'.mirrors == s.mirrors && s'.ovs == s.ovs && s'.bridges == s.bridges
    ensures s'.networks.Keys == s.networks.Keys
    ensures forall n :: n in s.networks ==> s'.networks[n].containers == s.networks[n].containers
  {
    hide Table;
  }

  // Delete

  /** Where a deletion can stop. */
  lemma DeleteOutcomes(s: State, id: Id, luck: Luck)
    ensures var s' := Exec(s, DeleteScript(s, id), luck).state;
            var s1 := s.(rules := s'.rules, faucet := s'.faucet);
            || s' == s1
            || (id in s.networks && s' == Perform(Perform(s1, DelBridge(s.networks[id].bridge)), ForgetNetwork(id)))
  {
    hide Exec;
    if id !in s.networks {
      assert [Panic] == [Panic] + [];
      ExecCons(s, Panic, [], luck);
    } else {
      var net := s.networks[id];
      var deldp, delbr, forget := DelDp(net.name), DelBridge(net.bridge), ForgetNetwork(id);
      var unnat := if net.mode == Nat then [DelRule(MasqueradeOut(net.cidr))] else [];
      assert DeleteScript(s, id) == [deldp] + (unnat + ([delbr] + [forget]));
      ExecCons(s, deldp, unnat + ([delbr] + [forget]), luck);
      var s1 := s.(faucet := s.faucet - {net.name});
      assert Perform(s, deldp) == s1;
      hide DeleteScript, Perform;
      var rules, through, luck' := ExecRulesAny(s1, unnat, [delbr] + [forget], Spend(luck));
      if through {
        DeleteTailOutcomes(s1.(rules := rules), net.bridge, id, luck');
      }
    }
  }

  lemma DeleteTailOutcomes(s: State, bridge: string, id: Id, luck: Luck)
    ensures var s' := Exec(s, [DelBridge(bridge)] + [ForgetNetwork(id)], luck).state;
            && s'.rules == s.rules && s'.faucet == s.faucet
            && (s' == s || s' == Perform(Perform(s, DelBridge(bridge)), ForgetNetwork(id)))
  {
    hide Exec;
    var delbr, forget := DelBridge(bridge), ForgetNetwork(id);
    ExecCons(s, delbr, [forget], luck);
    var s2 := Perform(s, delbr);
    assert [forget] == [forget] + [];
    ExecCons(s2, forget, [], Spend(luck));
    ExecNil(Perform(s2, forget), Spend(luck));
  }

  lemma DeleteSurvives(sys: Sys, id: Id, luck: Luck)
    requires Survives(sys) && Legal(sys, DeleteNetwork(id))
    ensures Survives(Next(sys, DeleteNetwork(id), luck))
    ensures Calm(sys.state, Next(sys, DeleteNetwork(id), luck).state)
  {
    hide LiveNumbers, ContainersMatch, Exec, DeleteScript, Calm, Perform;
    var s := sys.state;
    var sys' := Next(sys, DeleteNetwork(id), luck);
    DeleteOutcomes(s, id, luck);
    SupportedOvs(sys);
    var s1 := s.(rules := sys'.state.rules, faucet := sys'.state.faucet);
    if sys'.state == s1 {
      TablesAreCalm(s, s1);
    } else {
      DeletedIsCalm(s, s1, id);
    }
    CalmSurvives(sys, sys');
  }

  lemma TablesAreCalm(s: State, s': State)
    requires MirrorsKnown(s) && OvsOk(s) && s' == s.(rules := s'.rules, faucet := s'.faucet)
    ensures Calm(s, s')
  {
  }

  lemma DeletedIsCalm(s: State, s1: State, id: Id)
    requires MirrorsKnown(s) && OvsOk(s) && s1 == s.(rules := s1.rules, faucet := s1.faucet) && id in s.networks
    ensures var s' := Perform(Perform(s1, DelBridge(s.networks[id].bridge)), ForgetNetwork(id));
            Calm(s, s') && s'.networks.Keys <= s.networks.Keys
  {
    hide IsContainerPort;
    var b := s.networks[id].bridge;
    var s2 := s1.(bridges := s1.bridges - {b}, ovs := WithoutBridge(s1.ovs, b));
    assert Perform(s1, DelBridge(b)) == s2;
    var s3 := s2.(networks := s2.networks - {id}, mirrors := s2.mirrors - {id});
    assert Perform(s2, ForgetNetwork(id)) == s3;
    hide Perform;
    assert OvsOk(s3);
  }

  // The request thread, the reconciler and the host

  lemma InitSurvives(sys: Sys, id: Id, net: Network, lb: nat, attached: map<string, nat>, luck: Luck)
    requires Survives(sys) && Legal(sys, InitBridge(id, net, lb, attached))
    ensures Survives(Next(sys, InitBridge(id, net, lb, attached), luck))
    ensures Calm(sys.state, Next(sys, InitBridge(id, net, lb, attached), luck).state)
  {
    hide LiveNumbers, ContainersMatch, Calm, InitState, AttachedOk;
    SupportedOvs(sys);
    InitIsCalm(sys.state, net, attached, luck);
    hide InitOutcome;
    CalmSurvives(sys, Next(sys, InitBridge(id, net, lb, attached), luck));
  }

  /** However far the initialisation of a bridge gets. */
  lemma InitIsCalm(s: State, net: Network, attached: map<string, nat>, luck: Luck)
    requires MirrorsKnown(s) && OvsOk(s) && AttachedOk(s, net, attached)
    ensures Calm(s, InitOutcome(s, net, attached, luck)) && InitOutcome(s, net, attached, luck).networks == s.networks
  {
    if luck == FaultAfter(0) {
      TakenDownIsCalm(s, net.bridge);
    } else {
      N.InitOvs(s, net, attached);
      BuiltIsCalm(s, net, attached, InitOutcome(s, net, attached, luck));
    }
  }

  lemma TakenDownIsCalm(s: State, b: string)
    requires MirrorsKnown(s) && OvsOk(s)
    ensures Calm(s, s.(bridges := s.bridges - {b}, ovs := WithoutBridge(s.ovs, b)))
  {
    hide IsContainerPort;
  }

  lemma BuiltIsCalm(s: State, net: Network, attached: map<string, nat>, s': State)
    requires MirrorsKnown(s) && AttachedOk(s, net, attached) && OvsOk(InitState(s, net, attached))
    requires s' == InitState(s, net, attached).(rules := s'.rules)
    ensures Calm(s, s')
  {
    assert OvsOk(s');
    hide IsContainerPort, OvsOk;
  }

  lemma ReconcileSurvives(sys: Sys, id: Id, scrape: Option<R.PortDesc>, luck: Luck)
    requires Survives(sys)
    ensures Survives(Next(sys, Reconcile(id, scrape), luck))
    ensures Calm(sys.state, Next(sys, Reconcile(id, scrape), luck).state)
  {
    hide LiveNumbers, ContainersMatch, Calm, ReconcileState;
    SupportedOvs(sys);
    ReconcileIsCalm(sys.state, id, scrape);
    CalmSurvives(sys, Next(sys, Reconcile(id, scrape), luck));
  }

  lemma ReconcileIsCalm(s: State, id: Id, scrape: Option<R.PortDesc>)
    requires MirrorsKnown(s) && OvsOk(s)
    ensures Calm(s, ReconcileState(s, id, scrape)) && ReconcileState(s, id, scrape).networks.Keys == s.networks.Keys
  {
    if id in s.networks {
      N.ReconcileShape(s, id, scrape);
      hide ReconcileState, IsContainerPort;
    }
  }

  lemma HostSurvives(sys: Sys, op: Op, luck: Luck)
    requires Survives(sys) && Legal(sys, op) && (op.DhcpUpdate? || op.Plug? || op.Unplug?)
    ensures Survives(Next(sys, op, luck))
    ensures Calm(sys.state, Next(sys, op, luck).state)
  {
    hide LiveNumbers, ContainersMatch, Calm;
    SupportedOvs(sys);
    match op {
      case DhcpUpdate(id, e, hostIP) => DhcpIsCalm(sys.state, id, e, hostIP);
      case Plug(name, b, p) => PlugIsCalm(sys.state, name, b, p);
      case Unplug(name) => UnplugIsCalm(sys.state, name);
    }
    CalmSurvives(sys, Next(sys, op, luck));
  }

  lemma DhcpIsCalm(s: State, id: Id, e: Id, hostIP: string)
    requires MirrorsKnown(s) && OvsOk(s)
    ensures Calm(s, DhcpState(s, id, e, hostIP)) && DhcpState(s, id, e, hostIP).networks.Keys == s.networks.Keys
  {
    hide IsContainerPort;
  }

  lemma PlugIsCalm(s: State, name: string, b: string, p: nat)
    requires MirrorsKnown(s) && OvsOk(s)
    requires b in s.bridges && !IsContainerPort(name) && p >= 1 && p !in UsedPorts(s.ovs, b)
    ensures Calm(s, s.(ovs := s.ovs[name := At(b, p)]))
  {
    A.ReserveOvs(s, b, p, name);
    hide IsContainerPort, OvsOk;
  }

  lemma UnplugIsCalm(s: State, name: string)
    requires MirrorsKnown(s) && OvsOk(s)
    ensures Calm(s, s.(ovs := s.ovs - {name}))
  {
    hide IsContainerPort;
  }

  // -------------------------------------------------------------------------------------
  // Whole runs

  lemma StepSurvives(sys: Sys, op: Op, luck: Luck)
    requires Survives(sys) && Legal(sys, op)
    ensures Survives(Next(sys, op, luck))
  {
    hide Survives, Legal, Next;
    match op
    case InitBridge(id, net, lb, attached) => InitSurvives(sys, id, net, lb, attached, luck);
    case CreateNetwork(id, physical, copro) => CreateSurvives(sys, id, physical, copro, luck);
    case DeleteNetwork(id) => DeleteSurvives(sys, id, luck);
    case ReservePort(id, e) => ReserveSurvives(sys, id, e, luck);
    case JoinContainer(id, e, j) => JoinSurvives(sys, id, e, j, luck);
    case LeaveContainer(id, e) => LeaveSurvives(sys, id, e, luck);
    case Reconcile(id, scrape) => ReconcileSurvives(sys, id, scrape, luck);
    case _ => HostSurvives(sys, op, luck);
  }

  lemma {:induction false} RunSurvives(sys: Sys, events: seq<Event>)
    requires Survives(sys) && LegalRun(sys, events)
    ensures Survives(Run(sys, events))
    decreases |events|
  {
    hide Survives, Legal, Next;
    if events != [] {
      StepSurvives(sys, events[0].op, events[0].luck);
      RunSurvives(Next(sys, events[0].op, events[0].luck), events[1..]);
    }
  }

  /** What the theorem says of the live endpoints: one that is recorded and plugged in carries
      its number on the bridge, exactly unless a join recorded it without a reservation. */
  ghost predicate LiveNumbersExact(sys: Sys) {
    var d, s := sys.docker, sys.state;
    forall e :: e in d.eps && e in s.ofPorts && Veth(e) in s.ovs ==>
      (s.ovs[Veth(e)].port == s.ofPorts[e].port <==> s.ofPorts[e].port != 0)
  }

  /** With a panic possible at any command of any handler: live endpoints that are plugged in
      carry their number, every container port has a reservation with its number, container
      entries carry their reservation's number, and every network has its mirror
      configuration. */
  lemma FaultTheorem(sys: Sys, events: seq<Event>)
    requires Initial(sys) && LegalRun(sys, events)
    ensures var last := Run(sys, events);
            LiveNumbersExact(last) && Backed(last.state) && ContainersMatch(last.state) && MirrorsKnown(last.state)
  {
    assert Survives(sys);
    RunSurvives(sys, events);
    hide Run, LegalRun, Veth, IsContainerPort, Backed;
  }

  /** So two live endpoints reserved and plugged into one bridge differ in their number. */
  lemma PluggedPortsDistinct(sys: Sys, events: seq<Event>, e: Id, e': Id)
    requires Initial(sys) && LegalRun(sys, events)
    requires var d, s := Run(sys, events).docker, Run(sys, events).state;
             && e in d.eps && e' in d.eps && e != e'
             && e in s.ofPorts && e' in s.ofPorts && s.ofPorts[e].port != 0
             && Veth(e) in s.ovs && Veth(e') in s.ovs && s.ovs[Veth(e)].bridge == s.ovs[Veth(e')].bridge
    ensures var s := Run(sys, events).state; s.ofPorts[e].port != s.ofPorts[e'].port
  {
    assert Survives(sys);
    RunSurvives(sys, events);
    VethNames(e, e');
    hide Run, LegalRun, IsContainerPort, Backed;
  }

  // -------------------------------------------------------------------------------------
  // Dead endpoints too

  /** Every recorded endpoint that is plugged in, live or dead, carries its number. */
  ghost predicate NumbersMatch(s: State) {
    forall e :: e in s.ofPorts && Veth(e) in s.ovs ==> s.ovs[Veth(e)].port == s.ofPorts[e].port
  }

  /** The two ways to break that.  A reserve that goes through plugs in a name which a dead
      endpoint's reservation claims for another number; or a join records an endpoint that has
      no reservation while its name is plugged in. */
  ghost predicate Clashes(sys: Sys, op: Op, luck: Luck) {
    var s := sys.state;
    match op
    case ReservePort(id, e) =>
      && Exec(s, ReserveScript(s, id, e), luck).completed && id in s.networks
      && exists x :: x in s.ofPorts && x != e && Veth(x) == Veth(e) && s.ofPorts[x].port != Scan(UsedPorts(s.ovs, s.networks[id].bridge))
    case JoinContainer(id, e, j) =>
      Exec(s, JoinScript(s, id, e, j), luck).completed && e !in s.ofPorts && Veth(e) in s.ovs
    case _ => false
  }

  lemma CalmMatch(s: State, s': State)
    requires NumbersMatch(s) && Calm(s, s')
    ensures NumbersMatch(s')
  {
    forall e ensures IsContainerPort(Veth(e)) {
      VethNames(e, e);
    }
    hide Veth, IsContainerPort, OvsOk, MirrorsKnown;
  }

  lemma ReserveMatchIff(sys: Sys, id: Id, e: Id, luck: Luck)
    requires NumbersMatch(sys.state)
    ensures NumbersMatch(Next(sys, ReservePort(id, e), luck).state) <==> !Clashes(sys, ReservePort(id, e), luck)
  {
    hide Exec, ReserveScript, Veth, Scan;
    var s, s' := sys.state, Next(sys, ReservePort(id, e), luck).state;
    ReserveOutcomes(s, id, e, luck);
    if Exec(s, ReserveScript(s, id, e), luck).completed {
      var p := Scan(UsedPorts(s.ovs, s.networks[id].bridge));
      assert s'.ovs[Veth(e)].port == p && s'.ofPorts[e].port == p;
      if x :| x in s.ofPorts && x != e && Veth(x) == Veth(e) && s.ofPorts[x].port != p {
        assert x in s'.ofPorts && s'.ovs[Veth(x)].port != s'.ofPorts[x].port;
      }
    }
  }

  lemma JoinMatchIff(sys: Sys, id: Id, e: Id, j: Joined, luck: Luck)
    requires NumbersMatch(sys.state) && OvsOk(sys.state)
    ensures NumbersMatch(Next(sys, JoinContainer(id, e, j), luck).state) <==> !Clashes(sys, JoinContainer(id, e, j), luck)
  {
    hide Exec, JoinScript, Veth;
    var s, s' := sys.state, Next(sys, JoinContainer(id, e, j), luck).state;
    JoinOutcomes(s, id, e, j, luck);
    if Exec(s, JoinScript(s, id, e, j), luck).completed {
      var port := if e in s.ofPorts then s.ofPorts[e].port else 0;
      RecordedAt(s, s.(rules := s'.rules, faucet := s'.faucet), RecordJoin(id, e, Reservation(port, Some(j))));
      hide Perform;
      if e !in s.ofPorts && Veth(e) in s.ovs {
        assert s.ovs[Veth(e)].port >= 1;
        assert e in s'.ofPorts && s'.ofPorts[e].port == 0;
      }
    }
  }

  lemma RecordedAt(s: State, s1: State, record: Step)
    requires record.RecordJoin? && s1 == s.(rules := s1.rules, faucet := s1.faucet)
    ensures var s' := Perform(s1, record); s'.ovs == s.ovs && s'.ofPorts == s.ofPorts[record.endpoint := record.reservation]
  {
    hide Table, WithoutBridge;
  }

  lemma LeaveMatches(sys: Sys, id: Id, e: Id, luck: Luck)
    requires NumbersMatch(sys.state)
    ensures NumbersMatch(Next(sys, LeaveContainer(id, e), luck).state)
  {
    hide Exec, LeaveScript, Veth;
    var s := sys.state;
    LeaveOutcomes(s, id, e, luck);
    ForgetKeepsPorts(s.(ovs := s.ovs - {Veth(e)}, rules := Exec(s, LeaveScript(s, id, e), luck).state.rules,
                        faucet := Exec(s, LeaveScript(s, id, e), luck).state.faucet), id, e);
    hide Perform;
  }

  lemma ForgetKeepsPorts(s: State, id: Id, e: Id)
    ensures var s' := Perform(s, ForgetEndpoint(id, e)); s'.ovs == s.ovs && s'.ofPorts == s.ofPorts - {e}
  {
    hide Table, WithoutBridge;
  }

  /** One operation, wherever it is cut short, keeps all numbers in step exactly unless it clashes. */
  lemma StepMatchIff(sys: Sys, op: Op, luck: Luck)
    requires Survives(sys) && NumbersMatch(sys.state) && Legal(sys, op)
    ensures NumbersMatch(Next(sys, op, luck).state) <==> !Clashes(sys, op, luck)
  {
    SupportedOvs(sys);
    hide Survives, Legal, Next, NumbersMatch, Calm, OvsOk, Veth;
    var s' := Next(sys, op, luck).state;
    match op
    case InitBridge(id, net, lb, attached) => InitSurvives(sys, id, net, lb, attached, luck); CalmMatch(sys.state, s');
    case CreateNetwork(id, physical, copro) => CreateSurvives(sys, id, physical, copro, luck); CalmMatch(sys.state, s');
    case DeleteNetwork(id) => DeleteSurvives(sys, id, luck); CalmMatch(sys.state, s');
    case ReservePort(id, e) => ReserveMatchIff(sys, id, e, luck);
    case JoinContainer(id, e, j) => JoinMatchIff(sys, id, e, j, luck);
    case LeaveContainer(id, e) => LeaveMatches(sys, id, e, luck);
    case Reconcile(id, scrape) => ReconcileSurvives(sys, id, scrape, luck); CalmMatch(sys.state, s');
    case _ => HostSurvives(sys, op, luck); CalmMatch(sys.state, s');
  }

  /** The numbers of all recorded endpoints match now and after every event to come. */
  ghost predicate AlwaysMatch(sys: Sys, events: seq<Event>)
    decreases |events|
  {
    NumbersMatch(sys.state) && (events != [] ==> AlwaysMatch(Next(sys, events[0].op, events[0].luck), events[1..]))
  }

  ghost predicate NeverClashes(sys: Sys, events: seq<Event>)
    decreases |events|
  {
    events != [] ==>
      !Clashes(sys, events[0].op, events[0].luck) && NeverClashes(Next(sys, events[0].op, events[0].luck), events[1..])
  }

  lemma {:induction false} MatchThroughoutIff(sys: Sys, events: seq<Event>)
    requires Survives(sys) && NumbersMatch(sys.state) && LegalRun(sys, events)
    ensures AlwaysMatch(sys, events) <==> NeverClashes(sys, events)
    decreases |events|
  {
    hide Survives, Legal, Next, NumbersMatch, Clashes;
    if events != [] {
      StepMatchIff(sys, events[0].op, events[0].luck);
      StepSurvives(sys, events[0].op, events[0].luck);
      if NumbersMatch(Next(sys, events[0].op, events[0].luck).state) {
        MatchThroughoutIff(Next(sys, events[0].op, events[0].luck), events[1..]);
      }
    }
  }

  /** Over every run, faults included: each recorded endpoint that is plugged in, live or dead,
      carries its number after every event, exactly when no event clashes. */
  lemma NumbersMatchThroughoutIff(sys: Sys, events: seq<Event>)
    requires Initial(sys) && LegalRun(sys, events)
    ensures AlwaysMatch(sys, events) <==> NeverClashes(sys, events)
  {
    assert Survives(sys);
    MatchThroughoutIff(sys, events);
  }

  /** The collision: a dead endpoint left its reservation behind, and one that shares its five
      characters is plugged in at another number. */
  lemma SharedNameMismatch(sys: Sys, id: Id, e: Id, dead: Id)
    requires id in sys.state.networks && sys.state.networks[id].bridge in sys.state.bridges && OvsOk(sys.state)
    requires dead in sys.state.ofPorts && dead != e && dead[..5] == e[..5] && Veth(e) !in sys.state.ovs
    requires sys.state.ofPorts[dead].port != Scan(UsedPorts(sys.state.ovs, sys.state.networks[id].bridge))
    ensures !NumbersMatch(Next(sys, ReservePort(id, e), NoFault).state)
  {
    VethNames(e, dead);
    hide Veth;
    var s, b := sys.state, sys.state.networks[id].bridge;
    var p := Scan(UsedPorts(s.ovs, b));
    A.ScanIsFree(s, b);
    var s1 := Perform(s, AddPort(b, p, Veth(e)));
    assert ReserveScript(s, id, e) == [AddPort(b, p, Veth(e))] + [RecordPort(e, p)];
    ExecCons(s, AddPort(b, p, Veth(e)), [RecordPort(e, p)], NoFault);
    assert [RecordPort(e, p)] == [RecordPort(e, p)] + [];
    ExecCons(s1, RecordPort(e, p), [], NoFault);
    ExecNil(Perform(s1, RecordPort(e, p)), NoFault);
    var s2 := Perform(s1, RecordPort(e, p));
    assert s2 == s.(ovs := s.ovs[Veth(e) := At(b, p)], ofPorts := s.ofPorts[e := Reservation(p, None)]);
    assert dead in s2.ofPorts && s2.ovs[Veth(dead)].port == p;
  }

  // -------------------------------------------------------------------------------------
  // What does not survive

  /** Leaving after a join that never completed unplugs the endpoint and drops its interface,
      then panics: its reservation stays behind exactly in that case. */
  lemma StaleReservationIff(s: State, id: Id, e: Id)
    requires id in s.networks && e in s.ofPorts && Veth(e) in s.ovs && s.ovs[Veth(e)].bridge == s.networks[id].bridge
    requires s.ofPorts[e].joined.Some? ==> A.HasJoinRules(s, id, e)
    ensures var s' := Exec(s, LeaveScript(s, id, e), NoFault).state;
            && Veth(e) !in s'.ovs
            && s.ovs[Veth(e)].port !in Table(s', s.networks[id].name)
            && (e in s'.ofPorts <==> s.ofPorts[e].joined.None?)
  {
    hide Veth, Exec, JoinRules;
    if s.ofPorts[e].joined.Some? {
      A.LeaveResult(s, id, e);
    } else {
      var net := s.networks[id];
      var unplug, del := DelPort(net.bridge, Veth(e)), DelIface(net.name, s.ovs[Veth(e)].port);
      assert LeaveScript(s, id, e) == [unplug] + ([del] + [Panic]);
      ExecCons(s, unplug, [del] + [Panic], NoFault);
      var s1 := Perform(s, unplug);
      ExecCons(s1, del, [Panic], NoFault);
      var s2 := Perform(s1, del);
      assert [Panic] == [Panic] + [];
      ExecCons(s2, Panic, [], NoFault);
    }
  }

  /** The one assumption on faults that matters: if the bridge took the port but the command
      reported failure, there is no reservation, and the join records number 0 instead. */
  lemma JoinAfterLostReserve(s: State, id: Id, e: Id, j: Joined)
    requires OvsOk(s) && id in s.networks && e !in s.ofPorts && Veth(e) in s.ovs
    ensures var s' := Exec(s, JoinScript(s, id, e, j), NoFault).state;
            e in s'.ofPorts && s'.ofPorts[e].port == 0 && !NumbersMatch(s')
  {
    hide Exec, JoinRules, AddRules, Veth, Perform;
    assert s.ovs[Veth(e)].port >= 1;
    hide OvsOk;
    var net := s.networks[id];
    var merge := MergeIfaces(net.name, map[0 := Container(j.description, net.vlan, Labels.PortAcl(j.portAcl, net.defaultAcl, net.name))]);
    var record := RecordJoin(id, e, Reservation(0, Some(j)));
    var rules := JoinRules(net.bridge, j);
    assert JoinScript(s, id, e, j) == AddRules(rules) + ([merge] + ([Call] + [record]));
    hide JoinScript;
    ExecAddRules(s, rules, [merge] + ([Call] + [record]));
    var s1 := s.(rules := s.rules + rules);
    ExecCons(s1, merge, [Call] + [record], NoFault);
    var s2 := s1.(faucet := Perform(s1, merge).faucet);
    MergeKeepsRest(s1, merge);
    ExecCall(s2, [record], NoFault);
    assert [record] == [record] + [];
    ExecCons(s2, record, [], NoFault);
    ExecNil(Perform(s2, record), NoFault);
    RecordedAt(s, s2, record);
  }

  lemma MergeKeepsRest(s: State, merge: Step)
    requires merge.MergeIfaces?
    ensures Perform(s, merge) == s.(faucet := Perform(s, merge).faucet)
  {
    hide Table, WithoutBridge;
  }
}
