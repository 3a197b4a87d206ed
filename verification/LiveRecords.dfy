/**
 The four records of live endpoints under faults.  Whatever panics elsewhere, a live endpoint
 that was reserved stays plugged in at its number, and once its join has completed the four
 records agree; with one exception, a network whose deletion failed and whose name is in use
 again.
 */
module LiveRecords {
  import opened Types
  import opened Rules
  import opened World
  import opened Handlers
  import Labels
  import opened Faults
  import opened FaultyRules
  import opened Entries
  import FaultyRuns
  import A = Agreement
  import N = NetworkAgreement
  import R = Reconciler

  /** The records of a live endpoint that was reserved: OFPorts and the bridge agree, and if its join
      completed so do Containers and the controller, with the network's VLAN. */
  ghost predicate LiveOk(sys: Sys, e: Id)
    requires e in sys.docker.eps && e in sys.state.ofPorts
  {
    var s, n, r := sys.state, sys.docker.eps[e].network, sys.state.ofPorts[e];
    && n in s.networks && Veth(e) in s.ovs && s.ovs[Veth(e)] == At(s.networks[n].bridge, r.port)
    && (r.joined.Some? ==>
          var net, j := s.networks[n], r.joined.value;
          && e in net.containers && net.containers[e].port == r.port
          && r.port in Table(s, net.name) && Table(s, net.name)[r.port] == Container(j.description, net.vlan, Labels.PortAcl(j.portAcl, net.defaultAcl, net.name)))
  }

  /** Live and reserved; a join without a reservation records number 0. */
  ghost predicate Reserved(sys: Sys, e: Id) {
    e in sys.docker.eps && e in sys.state.ofPorts && sys.state.ofPorts[e].port != 0
  }

  ghost predicate AllLive(sys: Sys) {
    forall e :: Reserved(sys, e) ==> LiveOk(sys, e)
  }

  /** What every legal step keeps, whether or not it harms a live endpoint. */
  ghost predicate Grounded(sys: Sys, base: multiset<Rule>) {
    Survives(sys) && Covered(sys, base) && Booked(sys) && A.NetsApart(sys.docker.nets)
  }

  lemma StepGrounded(sys: Sys, op: Op, luck: Luck, base: multiset<Rule>)
    requires Grounded(sys, base) && Legal(sys, op)
    ensures Grounded(Next(sys, op, luck), base)
  {
    NextApart(sys.docker, op, luck) by { hide Survives, Covered, Booked; }
    assert Next(sys, op, luck).docker == DockerNext(sys.docker, op, luck);
    hide Survives, Covered, Booked, Legal, Next;
    FaultyRuns.StepSurvives(sys, op, luck);
    StepCovered(sys, op, luck, base);
  }

  lemma NextApart(d: Docker, op: Op, luck: Luck)
    requires A.NetsApart(d.nets)
    requires op.InitBridge? ==>
               forall m :: m in d.nets ==> d.nets[m].network.name != op.network.name && d.nets[m].network.bridge != op.network.bridge
    ensures A.NetsApart(DockerNext(d, op, luck).nets)
  {
    match op
    case InitBridge(id, net, lb, _) => N.ApartWith(d.nets, id, Requested(net, lb, false));
    case CreateNetwork(id, _, _) =>
      if id in d.nets {
        N.ApartWith(d.nets, id, d.nets[id].(created := true));
      }
    case DeleteNetwork(id) => N.ApartWithout(d.nets, id);
    case _ =>
  }

  // -------------------------------------------------------------------------------------
  // Frames

  /** Nothing that these records are about has changed. */
  ghost predicate SameLive(sys: Sys, sys': Sys, e: Id)
    requires e in sys.docker.eps && e in sys.state.ofPorts && LiveOk(sys, e)
  {
    var s, s', n := sys.state, sys'.state, sys.docker.eps[e].network;
    var net, p := s.networks[n], s.ofPorts[e].port;
    && e in sys'.docker.eps && sys'.docker.eps[e].network == n
    && n in s'.networks && A.SameNetwork(s'.networks[n], net)
    && (e in net.containers ==> e in s'.networks[n].containers && s'.networks[n].containers[e].port == net.containers[e].port)
    && e in s'.ofPorts && s'.ofPorts[e] == s.ofPorts[e]
    && Veth(e) in s'.ovs && s'.ovs[Veth(e)] == s.ovs[Veth(e)]
    && (s.ofPorts[e].joined.Some? ==> SameAt(s, s', net.name, p))
  }

  ghost predicate SameAt(s: State, s': State, dp: string, p: nat) {
    (p in Table(s', dp) <==> p in Table(s, dp)) && (p in Table(s, dp) ==> Table(s', dp)[p] == Table(s, dp)[p])
  }

  lemma LiveFrame(sys: Sys, sys': Sys, e: Id)
    requires e in sys.docker.eps && e in sys.state.ofPorts && LiveOk(sys, e) && SameLive(sys, sys', e)
    ensures e in sys'.docker.eps && e in sys'.state.ofPorts && LiveOk(sys', e)
  {
    hide Veth, Table;
  }

  /** Two reserved live endpoints of one network have different numbers. */
  lemma NumbersApart(sys: Sys, e: Id, x: Id)
    requires Supported(sys) && Reserved(sys, e) && LiveOk(sys, e) && Reserved(sys, x) && LiveOk(sys, x) && e != x
    requires sys.docker.eps[e].network == sys.docker.eps[x].network
    ensures sys.state.ofPorts[e].port != sys.state.ofPorts[x].port
  {
    VethNames(e, x);
    hide Veth, Backed;
  }

  /** The manager's record of a live endpoint's network is Docker's. */
  lemma NetworkOf(sys: Sys, e: Id)
    requires Booked(sys) && Reserved(sys, e) && LiveOk(sys, e)
    ensures var n := sys.docker.eps[e].network;
            && n in sys.docker.nets && sys.docker.nets[n].created && n in sys.state.networks
            && A.SameNetwork(sys.state.networks[n], sys.docker.nets[n].network)
  {
    hide Veth;
  }

  // -------------------------------------------------------------------------------------
  // Scripts and the tables they touch

  ghost predicate Touches(step: Step, dp: string, p: nat) {
    || (step.MergeIfaces? && step.dp == dp && p in step.ifaces)
    || (step.DelIface? && step.dp == dp && step.port == p)
    || (step.DelDp? && step.dp == dp)
  }

  lemma StepTouches(s: State, step: Step, dp: string, p: nat)
    requires !Touches(step, dp, p)
    ensures SameAt(s, Perform(s, step), dp, p)
  {
    hide WithoutBridge, NoteExternal, NoteContainer, DropContainer, RemoveFirst;
  }

  lemma {:induction false} ExecTouches(s: State, script: seq<Step>, luck: Luck, dp: string, p: nat)
    requires forall i :: 0 <= i < |script| ==> !Touches(script[i], dp, p)
    ensures SameAt(s, Exec(s, script, luck).state, dp, p)
    decreases |script|
  {
    hide Touches, Table;
    if script != [] {
      hide Exec, Perform;
      ExecHead(s, script, luck);
      StepTouches(s, script[0], dp, p);
      ExecTouches(Perform(s, script[0]), script[1..], if Infallible(script[0]) then luck else Spend(luck), dp, p);
    }
  }

  lemma JoinTouches(s: State, id: Id, e: Id, j: Joined, luck: Luck, dp: string, p: nat)
    requires id in s.networks ==> s.networks[id].name != dp || p != if e in s.ofPorts then s.ofPorts[e].port else 0
    ensures SameAt(s, Exec(s, JoinScript(s, id, e, j), luck).state, dp, p)
  {
    hide AddRules, JoinRules, Exec;
    ExecTouches(s, JoinScript(s, id, e, j), luck, dp, p);
  }

  lemma LeaveTouches(s: State, id: Id, e: Id, luck: Luck, dp: string, p: nat)
    requires id in s.networks && Veth(e) in s.ovs && s.ovs[Veth(e)].bridge == s.networks[id].bridge ==>
               s.networks[id].name != dp || s.ovs[Veth(e)].port != p
    ensures SameAt(s, Exec(s, LeaveScript(s, id, e), luck).state, dp, p)
  {
    hide DelRules, JoinRules, Exec, Veth;
    if id in s.networks && e in s.ofPorts && Veth(e) in s.ovs && s.ovs[Veth(e)].bridge != s.networks[id].bridge {
      var script := LeaveScript(s, id, e);
      assert script[0] == DelPort(s.networks[id].bridge, Veth(e));
      assert script == [script[0]] + script[1..];
      ExecCons(s, script[0], script[1..], luck);
    } else {
      ExecTouches(s, LeaveScript(s, id, e), luck, dp, p);
    }
  }

  lemma DeleteTouches(s: State, id: Id, luck: Luck, dp: string, p: nat)
    requires id in s.networks ==> s.networks[id].name != dp
    ensures SameAt(s, Exec(s, DeleteScript(s, id), luck).state, dp, p)
  {
    hide Exec;
    ExecTouches(s, DeleteScript(s, id), luck, dp, p);
  }

  /** A completed join has configured its number. */
  lemma JoinConfigures(s: State, id: Id, e: Id, j: Joined, luck: Luck)
    requires id in s.networks && Exec(s, JoinScript(s, id, e, j), luck).completed
    ensures var net, p := s.networks[id], if e in s.ofPorts then s.ofPorts[e].port else 0;
            var t := Table(Exec(s, JoinScript(s, id, e, j), luck).state, net.name);
            p in t && t[p] == Container(j.description, net.vlan, Labels.PortAcl(j.portAcl, net.defaultAcl, net.name))
  {
    hide Exec, JoinRules, AddRules, Perform;
    var net, port := s.networks[id], if e in s.ofPorts then s.ofPorts[e].port else 0;
    var merge := MergeIfaces(net.name, map[port := Container(j.description, net.vlan, Labels.PortAcl(j.portAcl, net.defaultAcl, net.name))]);
    var record := RecordJoin(id, e, Reservation(port, Some(j)));
    var rules, through, luck' := ExecRulesAny(s, AddRules(JoinRules(net.bridge, j)), [merge] + ([Call] + [record]), luck);
    assert JoinScript(s, id, e, j) == AddRules(JoinRules(net.bridge, j)) + ([merge] + ([Call] + [record]));
    hide JoinScript;
    var s1 := s.(rules := rules);
    JoinTailOutcomes(s1, merge, record, luck');
    MergedEntry(s1, net.name, port, Container(j.description, net.vlan, Labels.PortAcl(j.portAcl, net.defaultAcl, net.name)));
    RecordKeepsRest(s1.(faucet := Perform(s1, merge).faucet), id, e, Reservation(port, Some(j)));
    SameFaucet(Exec(s, JoinScript(s, id, e, j), luck).state, Perform(s1, merge));
    hide Table;
  }

  lemma MergedEntry(s: State, dp: string, p: nat, iface: Iface)
    ensures var t := Table(Perform(s, MergeIfaces(dp, map[p := iface])), dp); p in t && t[p] == iface
  {
    hide WithoutBridge, RemoveFirst, NoteExternal, NoteContainer, DropContainer;
  }

  lemma SameFaucet(s: State, s': State)
    ensures s.faucet == s'.faucet ==> forall dp :: Table(s, dp) == Table(s', dp)
  {
  }

  // -------------------------------------------------------------------------------------
  // Each operation, for an endpoint it is not about

  lemma InitVeth(s: State, net: Network, attached: map<string, nat>, luck: Luck, e: Id)
    requires AttachedOk(s, net, attached) && Veth(e) in s.ovs && s.ovs[Veth(e)].bridge != net.bridge
    ensures var s' := InitOutcome(s, net, attached, luck);
            && Veth(e) in s'.ovs && s'.ovs[Veth(e)] == s.ovs[Veth(e)]
            && s'.networks == s.networks && s'.ofPorts == s.ofPorts && s'.faucet == s.faucet
  {
    N.InitKeepsVeth(s, net, attached, e);
    hide Veth, IsContainerPort;
  }

  lemma InitLive(sys: Sys, id: Id, net: Network, lb: nat, attached: map<string, nat>, luck: Luck, e: Id)
    requires Booked(sys) && Legal(sys, InitBridge(id, net, lb, attached)) && Reserved(sys, e) && LiveOk(sys, e)
    ensures SameLive(sys, Next(sys, InitBridge(id, net, lb, attached), luck), e)
  {
    hide Veth;
    NetworkOf(sys, e);
    hide Booked;
    InitVeth(sys.state, net, attached, luck, e);
    hide InitOutcome, AttachedOk;
  }

  lemma CreateLive(sys: Sys, id: Id, physical: seq<string>, copro: seq<string>, luck: Luck, e: Id)
    requires Booked(sys) && A.NetsApart(sys.docker.nets) && Legal(sys, CreateNetwork(id, physical, copro))
    requires Reserved(sys, e) && LiveOk(sys, e)
    ensures SameLive(sys, Next(sys, CreateNetwork(id, physical, copro), luck), e)
  {
    hide Veth, Exec, CreateScript, Lists, Perform, N.Filled;
    NetworkOf(sys, e);
    var s, net, lb := sys.state, sys.docker.nets[id].network, sys.docker.nets[id].lbPort;
    var n := sys.docker.eps[e].network;
    assert n != id && s.networks[n].name != net.name;
    hide Booked, A.NetsApart;
    N.CreateResult(s, id, net, lb, physical, copro, luck);
    CreateSpares(s, Next(sys, CreateNetwork(id, physical, copro), luck).state, id, net, lb, luck, n);
    hide Table;
  }

  lemma CreateSpares(s: State, s': State, id: Id, net: Network, lb: nat, luck: Luck, n: Id)
    requires if luck == FaultAfter(0) then s' == s else N.Filled(Perform(s, RecordNetwork(id, net, lb)), s', id, net.name)
    requires n in s.networks && n != id && s.networks[n].name != net.name
    ensures n in s'.networks && s'.networks[n] == s.networks[n] && s'.ovs == s.ovs && s'.ofPorts == s.ofPorts
    ensures Table(s', s.networks[n].name) == Table(s, s.networks[n].name)
  {
    var s1 := s.(mirrors := s.mirrors[id := lb], networks := s.networks[id := net]);
    assert Perform(s, RecordNetwork(id, net, lb)) == s1;
    hide Perform;
    assert Table(s1, s.networks[n].name) == Table(s, s.networks[n].name);
    hide Table;
  }

  lemma DeleteLive(sys: Sys, id: Id, luck: Luck, e: Id)
    requires Booked(sys) && A.NetsApart(sys.docker.nets) && Legal(sys, DeleteNetwork(id)) && Reserved(sys, e) && LiveOk(sys, e)
    ensures SameLive(sys, Next(sys, DeleteNetwork(id), luck), e)
  {
    hide Veth, Exec, DeleteScript, SameAt;
    NetworkOf(sys, e);
    var s, n := sys.state, sys.docker.eps[e].network;
    assert n != id;
    assert id in s.networks ==> s.networks[id].name != s.networks[n].name && s.networks[id].bridge != s.networks[n].bridge;
    hide Booked, A.NetsApart;
    DeleteTouches(s, id, luck, s.networks[n].name, s.ofPorts[e].port);
    FaultyRuns.DeleteOutcomes(s, id, luck);
    DeleteSpares(s, Exec(s, DeleteScript(s, id), luck).state, id, n, Veth(e));
    hide Perform, Table;
  }

  lemma DeleteSpares(s: State, s': State, id: Id, n: Id, name: string)
    requires var s1 := s.(rules := s'.rules, faucet := s'.faucet);
             s' == s1 || (id in s.networks && s' == Perform(Perform(s1, DelBridge(s.networks[id].bridge)), ForgetNetwork(id)))
    requires n in s.networks && n != id && name in s.ovs && s.ovs[name].bridge == s.networks[n].bridge
    requires id in s.networks ==> s.networks[id].bridge != s.networks[n].bridge
    ensures n in s'.networks && s'.networks[n] == s.networks[n] && s'.ofPorts == s.ofPorts
    ensures name in s'.ovs && s'.ovs[name] == s.ovs[name]
  {
    hide Table, RemoveFirst;
  }

  lemma ReserveLive(sys: Sys, id: Id, x: Id, luck: Luck, e: Id)
    requires Legal(sys, ReservePort(id, x)) && Reserved(sys, e) && LiveOk(sys, e)
    ensures SameLive(sys, Next(sys, ReservePort(id, x), luck), e)
  {
    VethNames(e, x);
    hide Veth, Exec, ReserveScript;
    ReserveOutcomes(sys.state, id, x, luck);
  }

  lemma JoinLive(sys: Sys, id: Id, x: Id, j: Joined, luck: Luck, e: Id)
    requires Supported(sys) && Booked(sys) && A.NetsApart(sys.docker.nets) && Legal(sys, JoinContainer(id, x, j))
    requires Reserved(sys, e) && LiveOk(sys, e) && e != x && (Reserved(sys, x) ==> LiveOk(sys, x))
    ensures SameLive(sys, Next(sys, JoinContainer(id, x, j), luck), e)
  {
    hide Veth, Exec, JoinScript, JoinRules, SameAt, Backed, Perform;
    var s, n := sys.state, sys.docker.eps[e].network;
    if n == id && Reserved(sys, x) {
      NumbersApart(sys, e, x);
    }
    NetworkOf(sys, e);
    assert n != id && id in s.networks ==> s.networks[id].name != s.networks[n].name;
    hide Booked, A.NetsApart, Supported;
    JoinTouches(s, id, x, j, luck, s.networks[n].name, s.ofPorts[e].port);
    JoinOutcomes(s, id, x, j, luck);
    var r := Exec(s, JoinScript(s, id, x, j), luck);
    JoinSpares(s, r.state, id, x, j, r.completed, e, n);
    hide Table;
  }

  lemma JoinSpares(s: State, s': State, id: Id, x: Id, j: Joined, completed: bool, e: Id, n: Id)
    requires var port := if x in s.ofPorts then s.ofPorts[x].port else 0;
             var s1 := s.(rules := s'.rules, faucet := s'.faucet);
             if completed then id in s.networks && s' == Perform(s1, RecordJoin(id, x, Reservation(port, Some(j)))) else s' == s1
    requires n in s.networks && e in s.ofPorts && e != x
    ensures n in s'.networks && A.SameNetwork(s'.networks[n], s.networks[n]) && s'.ovs == s.ovs
    ensures e in s.networks[n].containers ==> e in s'.networks[n].containers && s'.networks[n].containers[e] == s.networks[n].containers[e]
    ensures e in s'.ofPorts && s'.ofPorts[e] == s.ofPorts[e]
  {
    hide Table, WithoutBridge, RemoveFirst;
  }

  lemma LeaveLive(sys: Sys, id: Id, x: Id, luck: Luck, e: Id)
    requires Supported(sys) && Booked(sys) && A.NetsApart(sys.docker.nets) && Legal(sys, LeaveContainer(id, x))
    requires Reserved(sys, e) && LiveOk(sys, e) && e != x
    ensures SameLive(sys, Next(sys, LeaveContainer(id, x), luck), e)
  {
    VethNames(e, x);
    hide Veth, Exec, LeaveScript, JoinRules, SameAt, Backed, Perform;
    var s, n := sys.state, sys.docker.eps[e].network;
    NetworkOf(sys, e);
    assert n != id && id in s.networks ==> s.networks[id].name != s.networks[n].name;
    assert n == id && Veth(x) in s.ovs && s.ovs[Veth(x)].bridge == s.networks[id].bridge ==> s.ovs[Veth(x)].port != s.ofPorts[e].port;
    hide Booked, A.NetsApart, Supported;
    LeaveTouches(s, id, x, luck, s.networks[n].name, s.ofPorts[e].port);
    LeaveOutcomes(s, id, x, luck);
    LeaveSpares(s, Exec(s, LeaveScript(s, id, x), luck).state, id, x, e, n);
    hide Table;
  }

  lemma LeaveSpares(s: State, s': State, id: Id, x: Id, e: Id, n: Id)
    requires var s1 := s.(ovs := s.ovs - {Veth(x)}, rules := s'.rules, faucet := s'.faucet);
             s' == s || s' == s1 || (id in s.networks && s' == Perform(s1, ForgetEndpoint(id, x)))
    requires n in s.networks && e in s.ofPorts && e != x && Veth(e) != Veth(x) && Veth(e) in s.ovs
    ensures n in s'.networks && A.SameNetwork(s'.networks[n], s.networks[n])
    ensures Veth(e) in s'.ovs && s'.ovs[Veth(e)] == s.ovs[Veth(e)]
    ensures e in s.networks[n].containers ==> e in s'.networks[n].containers && s'.networks[n].containers[e] == s.networks[n].containers[e]
    ensures e in s'.ofPorts && s'.ofPorts[e] == s.ofPorts[e]
  {
    hide Table, WithoutBridge, RemoveFirst, Veth;
  }

  // -------------------------------------------------------------------------------------
  // The endpoint an operation is about

  lemma ReserveOwn(sys: Sys, id: Id, x: Id, luck: Luck)
    requires Supported(sys) && Legal(sys, ReservePort(id, x))
    ensures var sys' := Next(sys, ReservePort(id, x), luck); Reserved(sys', x) ==> LiveOk(sys', x)
  {
    hide Veth, Exec, ReserveScript, Backed;
    ReserveOutcomes(sys.state, id, x, luck);
  }

  lemma JoinOwn(sys: Sys, id: Id, x: Id, j: Joined, luck: Luck)
    requires Booked(sys) && Legal(sys, JoinContainer(id, x, j)) && (Reserved(sys, x) ==> LiveOk(sys, x))
    ensures var sys' := Next(sys, JoinContainer(id, x, j), luck); Reserved(sys', x) ==> LiveOk(sys', x)
  {
    hide Veth, Exec, JoinScript, JoinRules, Perform;
    var s, r := sys.state, Exec(sys.state, JoinScript(sys.state, id, x, j), luck);
    JoinOutcomes(s, id, x, j, luck);
    if r.completed {
      JoinConfigures(s, id, x, j, luck);
      JoinRecords(s, r.state, id, x, j);
    }
    hide Table;
  }

  lemma JoinRecords(s: State, s': State, id: Id, x: Id, j: Joined)
    requires var port := if x in s.ofPorts then s.ofPorts[x].port else 0;
             var s1 := s.(rules := s'.rules, faucet := s'.faucet);
             id in s.networks && s' == Perform(s1, RecordJoin(id, x, Reservation(port, Some(j))))
    ensures var port := if x in s.ofPorts then s.ofPorts[x].port else 0;
            && id in s'.networks && A.SameNetwork(s'.networks[id], s.networks[id]) && s'.ovs == s.ovs
            && x in s'.ofPorts && s'.ofPorts[x] == Reservation(port, Some(j))
            && x in s'.networks[id].containers && s'.networks[id].containers[x].port == port
  {
    hide Table, WithoutBridge, RemoveFirst;
  }

  // -------------------------------------------------------------------------------------
  // Reconciliation

  /** A pass over a network of the same name edits the number of this joined endpoint. */
  ghost predicate Harms(sys: Sys, op: Op, e: Id) {
    var s := sys.state;
    && op.Reconcile? && op.id in s.networks && Reserved(sys, e) && s.ofPorts[e].joined.Some?
    && sys.docker.eps[e].network in s.networks && s.networks[op.id].name == s.networks[sys.docker.eps[e].network].name
    && op.scrape.Some? && op.scrape != ViewOf(s, op.id).cache
    && (R.Wants(SettingsOf(s, op.id), op.scrape.value, s.ofPorts[e].port) || R.Gone(Cached(s, op.id), op.scrape.value, s.ofPorts[e].port))
  }

  /** Its own network's passes never do. */
  lemma OwnPassHarmless(sys: Sys, scrape: Option<R.PortDesc>, e: Id)
    requires Reserved(sys, e) && LiveOk(sys, e) && Legal(sys, Reconcile(sys.docker.eps[e].network, scrape))
    ensures !Harms(sys, Reconcile(sys.docker.eps[e].network, scrape), e)
  {
    VethNames(e, e);
    hide Veth, Table;
  }

  /** So only a network that Docker has deleted, and the manager failed to, can do harm. */
  lemma HarmIsStale(sys: Sys, op: Op, e: Id)
    requires Booked(sys) && A.NetsApart(sys.docker.nets) && Reserved(sys, e) && LiveOk(sys, e) && Legal(sys, op) && Harms(sys, op, e)
    ensures op.id !in sys.docker.nets
  {
    NetworkOf(sys, e);
    if op.id == sys.docker.eps[e].network {
      OwnPassHarmless(sys, op.scrape, e);
    }
    hide Veth, Table, R.Wants, R.Gone;
  }

  lemma ReconcileLiveIff(sys: Sys, id: Id, scrape: Option<R.PortDesc>, luck: Luck, e: Id)
    requires Reserved(sys, e) && LiveOk(sys, e)
    ensures var sys' := Next(sys, Reconcile(id, scrape), luck);
            Reserved(sys', e) && (LiveOk(sys', e) <==> !Harms(sys, Reconcile(id, scrape), e))
  {
    hide Veth, ReconcileState, Table, SettingsOf, ViewOf, R.Wants, R.Gone;
    var s, s' := sys.state, ReconcileState(sys.state, id, scrape);
    var n, p := sys.docker.eps[e].network, sys.state.ofPorts[e].port;
    if id !in s.networks {
      assert s' == s by { NoPass(s, id, scrape); }
    } else {
      N.ReconcileShape(s, id, scrape);
      if s.networks[id].name == s.networks[n].name {
        OwnPass(s, scrape, id, p);
        PassedEntry(s, s', id, n, p);
      }
    }
  }

  lemma NoPass(s: State, id: Id, scrape: Option<R.PortDesc>)
    requires id !in s.networks
    ensures ReconcileState(s, id, scrape) == s
  {
  }

  /** Networks of one name share their entries. */
  lemma PassedEntry(s: State, s': State, id: Id, n: Id, p: nat)
    requires id in s.networks && n in s.networks && s.networks[id].name == s.networks[n].name
    requires id in s'.networks && n in s'.networks && s'.networks[id].name == s.networks[id].name && s'.networks[n].name == s.networks[n].name
    ensures EntryAt(s, id, p) == (if p in Table(s, s.networks[n].name) then Some(Table(s, s.networks[n].name)[p]) else None)
    ensures EntryAt(s', id, p) == (if p in Table(s', s.networks[n].name) then Some(Table(s', s.networks[n].name)[p]) else None)
  {
    hide Table;
  }

  // -------------------------------------------------------------------------------------
  // Steps and runs

  lemma HostLive(sys: Sys, op: Op, luck: Luck, e: Id)
    requires Legal(sys, op) && (op.DhcpUpdate? || op.Plug? || op.Unplug?) && Reserved(sys, e) && LiveOk(sys, e)
    ensures SameLive(sys, Next(sys, op, luck), e)
  {
    VethNames(e, e);
    hide Veth, IsContainerPort;
    match op
    case DhcpUpdate(id, x, hostIP) =>
      N.DhcpShape(sys.state, id, x, hostIP);
      SameFaucet(sys.state, DhcpState(sys.state, id, x, hostIP));
      hide DhcpState, Table, A.SameNetwork;
    case Plug(name, b, p) =>
    case Unplug(name) =>
  }

  /** One operation that is not a reconciliation keeps every live endpoint's records. */
  lemma StepLive(sys: Sys, op: Op, luck: Luck, base: multiset<Rule>, e: Id)
    requires Grounded(sys, base) && AllLive(sys) && Legal(sys, op) && !op.Reconcile? && Reserved(Next(sys, op, luck), e)
    ensures LiveOk(Next(sys, op, luck), e)
  {
    var sys' := Next(sys, op, luck);
    NewlyReserved(sys, op, luck, e);
    hide Next, LiveOk, SameLive, Supported, Booked, A.NetsApart, Covered, LiveNumbers, ContainersMatch, MirrorsKnown;
    match op
    case ReservePort(id, x) =>
      if x == e { ReserveOwn(sys, id, x, luck); } else { ReserveLive(sys, id, x, luck, e); LiveFrame(sys, sys', e); }
    case JoinContainer(id, x, j) =>
      if x == e { JoinOwn(sys, id, x, j, luck); } else { JoinLive(sys, id, x, j, luck, e); LiveFrame(sys, sys', e); }
    case LeaveContainer(id, x) => LeaveLive(sys, id, x, luck, e); LiveFrame(sys, sys', e);
    case InitBridge(id, net, lb, attached) => InitLive(sys, id, net, lb, attached, luck, e); LiveFrame(sys, sys', e);
    case CreateNetwork(id, physical, copro) => CreateLive(sys, id, physical, copro, luck, e); LiveFrame(sys, sys', e);
    case DeleteNetwork(id) => DeleteLive(sys, id, luck, e); LiveFrame(sys, sys', e);
    case _ => HostLive(sys, op, luck, e); LiveFrame(sys, sys', e);
  }

  /** Only a reserve of its own makes an endpoint reserved, and a leave of its own is its end. */
  lemma NewlyReserved(sys: Sys, op: Op, luck: Luck, e: Id)
    requires Survives(sys) && Legal(sys, op) && !op.Reconcile? && Reserved(Next(sys, op, luck), e)
    ensures Reserved(sys, e) || (op.ReservePort? && op.endpoint == e)
    ensures op.LeaveContainer? ==> op.endpoint != e
  {
    hide Survives, Exec, Script, Veth, FaultyRuns.Calm, Legal;
    match op
    case ReservePort(id, x) => if x != e { ReservePorts(sys, id, x, luck, e); }
    case JoinContainer(id, x, j) => JoinPorts(sys, id, x, j, luck, e);
    case LeaveContainer(id, x) => LeavePorts(sys, id, x, luck, e);
    case InitBridge(id, net, lb, attached) => FaultyRuns.InitSurvives(sys, id, net, lb, attached, luck); CalmReserved(sys, op, luck, e);
    case CreateNetwork(id, physical, copro) => FaultyRuns.CreateSurvives(sys, id, physical, copro, luck); CalmReserved(sys, op, luck, e);
    case DeleteNetwork(id) => FaultyRuns.DeleteSurvives(sys, id, luck); CalmReserved(sys, op, luck, e);
    case _ => FaultyRuns.HostSurvives(sys, op, luck); CalmReserved(sys, op, luck, e);
  }

  lemma CalmReserved(sys: Sys, op: Op, luck: Luck, e: Id)
    requires FaultyRuns.Calm(sys.state, Next(sys, op, luck).state) && Reserved(Next(sys, op, luck), e)
    requires !op.ReservePort? && !op.JoinContainer? && !op.LeaveContainer?
    ensures Reserved(sys, e)
  {
    hide StateNext;
  }

  lemma ReservePorts(sys: Sys, id: Id, x: Id, luck: Luck, e: Id)
    requires Reserved(Next(sys, ReservePort(id, x), luck), e) && e != x
    ensures Reserved(sys, e)
  {
    hide Exec, ReserveScript, Veth;
    ReserveOutcomes(sys.state, id, x, luck);
  }

  lemma JoinPorts(sys: Sys, id: Id, x: Id, j: Joined, luck: Luck, e: Id)
    requires Legal(sys, JoinContainer(id, x, j)) && Reserved(Next(sys, JoinContainer(id, x, j), luck), e)
    ensures Reserved(sys, e)
  {
    hide Exec, JoinScript, Perform;
    var s, r := sys.state, Exec(sys.state, JoinScript(sys.state, id, x, j), luck);
    JoinOutcomes(s, id, x, j, luck);
    if r.completed {
      var port := if x in s.ofPorts then s.ofPorts[x].port else 0;
      FaultyRuns.RecordedAt(s, s.(rules := r.state.rules, faucet := r.state.faucet), RecordJoin(id, x, Reservation(port, Some(j))));
    }
  }

  lemma LeavePorts(sys: Sys, id: Id, x: Id, luck: Luck, e: Id)
    requires Reserved(Next(sys, LeaveContainer(id, x), luck), e)
    ensures Reserved(sys, e) && e != x
  {
    hide Exec, LeaveScript, Perform, Veth;
    var s, s' := sys.state, Exec(sys.state, LeaveScript(sys.state, id, x), luck).state;
    LeaveOutcomes(s, id, x, luck);
    FaultyRuns.ForgetKeepsPorts(s.(ovs := s.ovs - {Veth(x)}, rules := s'.rules, faucet := s'.faucet), id, x);
  }

  /** One operation, wherever it is cut short, keeps all live endpoints' records exactly if it harms
      none of them. */
  lemma StepLiveIff(sys: Sys, op: Op, luck: Luck, base: multiset<Rule>)
    requires Grounded(sys, base) && AllLive(sys) && Legal(sys, op)
    ensures AllLive(Next(sys, op, luck)) <==> forall e :: !Harms(sys, op, e)
  {
    var sys' := Next(sys, op, luck);
    if op.Reconcile? {
      forall e | Reserved(sys, e) ensures Reserved(sys', e) && (LiveOk(sys', e) <==> !Harms(sys, op, e)) {
        ReconcileLiveIff(sys, op.id, op.scrape, luck, e);
      }
      assert forall e :: Reserved(sys', e) ==> Reserved(sys, e) by { ReconcileReserved(sys, op.id, op.scrape, luck); }
      hide Next, LiveOk, Reserved, Grounded, R.Wants, R.Gone;
    } else {
      forall e | Reserved(sys', e) ensures LiveOk(sys', e) {
        StepLive(sys, op, luck, base, e);
      }
    }
  }

  lemma ReconcileReserved(sys: Sys, id: Id, scrape: Option<R.PortDesc>, luck: Luck)
    ensures forall e :: Reserved(Next(sys, Reconcile(id, scrape), luck), e) ==> Reserved(sys, e)
  {
    ReconcileNames(sys.state, id, scrape);
    hide ReconcileState;
  }

  /** All live endpoints' records are right now and after every event to come. */
  ghost predicate AlwaysLive(sys: Sys, events: seq<Event>)
    decreases |events|
  {
    AllLive(sys) && (events != [] ==> AlwaysLive(Next(sys, events[0].op, events[0].luck), events[1..]))
  }

  ghost predicate NeverHarms(sys: Sys, events: seq<Event>)
    decreases |events|
  {
    events != [] ==>
      (forall e :: !Harms(sys, events[0].op, e)) && NeverHarms(Next(sys, events[0].op, events[0].luck), events[1..])
  }

  lemma {:induction false} RunLiveIff(sys: Sys, events: seq<Event>, base: multiset<Rule>)
    requires Grounded(sys, base) && AllLive(sys) && LegalRun(sys, events)
    ensures AlwaysLive(sys, events) <==> NeverHarms(sys, events)
    ensures AlwaysLive(sys, events) ==> AllLive(Run(sys, events))
    decreases |events|
  {
    hide Grounded, AllLive, Legal, Next, Harms;
    if events != [] {
      var sys' := Next(sys, events[0].op, events[0].luck);
      StepLiveIff(sys, events[0].op, events[0].luck, base);
      StepGrounded(sys, events[0].op, events[0].luck, base);
      if AllLive(sys') {
        RunLiveIff(sys', events[1..], base);
      }
    }
  }

  lemma InitiallyGrounded(sys: Sys)
    requires Initial(sys)
    ensures Grounded(sys, multiset(sys.state.rules)) && AllLive(sys)
  {
    InitiallyCovered(sys);
    hide Covered, Booked;
  }

  /** In every run, with a panic possible at any command: the records of every live endpoint that was
      reserved agree after every event, in all four places once its join has completed, exactly if
      no pass over a network of the same name edits a live endpoint's number. */
  lemma LiveThroughoutIff(sys: Sys, events: seq<Event>)
    requires Initial(sys) && LegalRun(sys, events)
    ensures AlwaysLive(sys, events) <==> NeverHarms(sys, events)
    ensures AlwaysLive(sys, events) ==> AllLive(Run(sys, events))
  {
    InitiallyGrounded(sys);
    hide Grounded, AllLive;
    RunLiveIff(sys, events, multiset(sys.state.rules));
  }

  /** The manager knows of no network that Docker has deleted whenever it reconciles one. */
  ghost predicate NoStalePass(sys: Sys, events: seq<Event>)
    decreases |events|
  {
    events != [] ==>
      && (events[0].op.Reconcile? && events[0].op.id in sys.state.networks ==> events[0].op.id in sys.docker.nets)
      && NoStalePass(Next(sys, events[0].op, events[0].luck), events[1..])
  }

  lemma {:induction false} RunLive(sys: Sys, events: seq<Event>, base: multiset<Rule>)
    requires Grounded(sys, base) && AllLive(sys) && LegalRun(sys, events) && NoStalePass(sys, events)
    ensures AllLive(Run(sys, events))
    decreases |events|
  {
    hide Grounded, AllLive, Legal, Next, Harms;
    if events != [] {
      var sys' := Next(sys, events[0].op, events[0].luck);
      StepLiveIff(sys, events[0].op, events[0].luck, base);
      StepGrounded(sys, events[0].op, events[0].luck, base);
      NoHarm(sys, events[0].op, base);
      RunLive(sys', events[1..], base);
    }
  }

  lemma NoHarm(sys: Sys, op: Op, base: multiset<Rule>)
    requires Grounded(sys, base) && AllLive(sys) && Legal(sys, op)
    requires op.Reconcile? && op.id in sys.state.networks ==> op.id in sys.docker.nets
    ensures forall e :: !Harms(sys, op, e)
  {
    hide Survives, Covered, Booked, LiveOk;
    forall e ensures !Harms(sys, op, e) {
      if Harms(sys, op, e) {
        HarmIsStale(sys, op, e);
      }
    }
  }

  /** In particular: as long as no deletion fails and is followed by a pass, all four records of every
      live endpoint agree in every state, whatever else panics. */
  lemma LiveTheorem(sys: Sys, events: seq<Event>)
    requires Initial(sys) && LegalRun(sys, events) && NoStalePass(sys, events)
    ensures AllLive(Run(sys, events))
  {
    InitiallyGrounded(sys);
    hide Grounded, AllLive;
    RunLive(sys, events, multiset(sys.state.rules));
  }

  /** The exception: a network whose deletion failed still has a host port cached at a live
      endpoint's number on the datapath of that name.  Its bridge is gone, its next scrape shows
      nothing, and the endpoint's interface is deleted. */
  lemma StaleNamesakeHarms(sys: Sys, e: Id, stale: Id)
    requires Reserved(sys, e) && LiveOk(sys, e) && sys.state.ofPorts[e].joined.Some? && stale in sys.state.networks
    requires sys.state.networks[stale].name == sys.state.networks[sys.docker.eps[e].network].name
    requires stale in sys.state.cache && sys.state.ofPorts[e].port in sys.state.cache[stale]
    requires !IsContainerPort(sys.state.cache[stale][sys.state.ofPorts[e].port])
    ensures var sys' := Next(sys, Reconcile(stale, Some(map[])), NoFault);
            !LiveOk(sys', e) && sys.state.ofPorts[e].port !in Table(sys'.state, sys.state.networks[stale].name)
  {
    hide Veth, Table;
    var p := sys.state.ofPorts[e].port;
    ReconcileLiveIff(sys, stale, Some(map[]), NoFault, e);
    assert Harms(sys, Reconcile(stale, Some(map[])), e);
    OwnPass(sys.state, Some(map[]), stale, p);
    N.ReconcileShape(sys.state, stale, Some(map[]));
    hide ReconcileState;
    PassedEntry(sys.state, ReconcileState(sys.state, stale, Some(map[])), stale, stale, p);
  }
}
