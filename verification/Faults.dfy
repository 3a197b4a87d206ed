/**
 Runs with faults.  Any command of any handler may panic instead of taking effect, as often
 as it likes; the handler recovers and the next request is served.  This is what still
 holds in every state such a run can reach.
 */
module Faults {
  import opened Types
  import opened Ports
  import opened Rules
  import opened World
  import opened Handlers
  import Labels
  import A = Agreement

  /** A live endpoint recorded with a number and plugged in carries exactly that number on the
      bridge.  Number 0 is what a join records for an endpoint that was never reserved. */
  ghost predicate LiveNumbers(sys: Sys) {
    var d, s := sys.docker, sys.state;
    forall e :: e in d.eps && e in s.ofPorts && Veth(e) in s.ovs && s.ofPorts[e].port != 0 ==>
      s.ovs[Veth(e)].port == s.ofPorts[e].port
  }

  /** Every container port has a reservation, of a live endpoint or a dead one, with its number. */
  ghost predicate Backed(s: State) {
    forall name :: name in s.ovs && IsContainerPort(name) ==>
      exists e :: e in s.ofPorts && Veth(e) == name && s.ofPorts[e].port == s.ovs[name].port
  }

  /** Every container entry has a reservation with the same number. */
  ghost predicate ContainersMatch(s: State) {
    forall n, e :: n in s.networks && e in s.networks[n].containers ==>
      e in s.ofPorts && s.ofPorts[e].port == s.networks[n].containers[e].port
  }

  ghost predicate MirrorsKnown(s: State) {
    s.networks.Keys <= s.mirrors.Keys
  }

  /** Supporting facts: five characters tell live endpoints apart, and an endpoint's container
      entry sits in one network only. */
  ghost predicate Supported(sys: Sys) {
    var d, s := sys.docker, sys.state;
    && OvsOk(s)
    && Backed(s)
    && (forall e, e' :: e in d.eps && e' in d.eps && e != e' ==> e[..5] != e'[..5])
    && (forall n, m, e :: n in s.networks && m in s.networks && e in s.networks[n].containers && e in s.networks[m].containers ==> n == m)
    && (forall n, e :: n in s.networks && e in s.networks[n].containers && e in d.eps ==> d.eps[e].network == n)
    && (forall n :: n in d.nets && !d.nets[n].created ==> n !in s.networks && d.nets[n].network.containers == map[])
  }

  ghost predicate Survives(sys: Sys) {
    LiveNumbers(sys) && ContainersMatch(sys.state) && MirrorsKnown(sys.state) && Supported(sys)
  }

  // -------------------------------------------------------------------------------------
  // Rule commands under faults: only the rules can have changed

  lemma RuleStepEffect(s: State, step: Step)
    requires step.AddRule? || step.DelRule?
    ensures Perform(s, step) == s.(rules := Perform(s, step).rules)
  {
    hide Table, WithoutBridge;
  }

  lemma {:induction false} ExecRulesAny(s: State, steps: seq<Step>, rest: seq<Step>, luck: Luck)
    returns (rules: seq<Rule>, through: bool, luck': Luck)
    requires forall i :: 0 <= i < |steps| ==> steps[i].AddRule? || steps[i].DelRule?
    ensures Exec(s, steps + rest, luck) ==
            if through then Exec(s.(rules := rules), rest, luck') else Outcome(s.(rules := rules), false)
    decreases |steps|
  {
    hide Exec, Perform, Enabled;
    if steps == [] {
      assert steps + rest == rest;
      return s.rules, true, luck;
    }
    assert steps + rest == [steps[0]] + (steps[1..] + rest);
    ExecCons(s, steps[0], steps[1..] + rest, luck);
    if luck == FaultAfter(0) || !Enabled(s, steps[0]) {
      return s.rules, false, luck;
    }
    var s1 := Perform(s, steps[0]);
    RuleStepEffect(s, steps[0]);
    rules, through, luck' := ExecRulesAny(s1, steps[1..], rest, Spend(luck));
    assert s1.(rules := rules) == s.(rules := rules);
  }

  // -------------------------------------------------------------------------------------
  // Endpoint handlers

  lemma ReserveOutcomes(s: State, id: Id, e: Id, luck: Luck)
    ensures var r := Exec(s, ReserveScript(s, id, e), luck);
            if r.completed then
              && id in s.networks && s.networks[id].bridge in s.bridges && Veth(e) !in s.ovs
              && var b := s.networks[id].bridge;
                 var p := Scan(UsedPorts(s.ovs, b));
                 && p !in UsedPorts(s.ovs, b)
                 && r.state == s.(ovs := s.ovs[Veth(e) := At(b, p)], ofPorts := s.ofPorts[e := Reservation(p, None)])
            else r.state == s
  {
    hide Exec, Veth;
    if id !in s.networks {
      assert [Panic] == [Panic] + [];
      ExecCons(s, Panic, [], luck);
    } else {
      var b := s.networks[id].bridge;
      var p := Scan(UsedPorts(s.ovs, b));
      var add, record := AddPort(b, p, Veth(e)), RecordPort(e, p);
      assert ReserveScript(s, id, e) == [add] + [record] && [record] == [record] + [];
      ExecCons(s, add, [record], luck);
      var s1 := Perform(s, add);
      ExecCons(s1, record, [], Spend(luck));
      ExecNil(Perform(s1, record), Spend(luck));
    }
  }

  lemma ReserveSurvives(sys: Sys, id: Id, e: Id, luck: Luck)
    requires Survives(sys) && Legal(sys, ReservePort(id, e))
    ensures Survives(Next(sys, ReservePort(id, e), luck))
  {
    var s := sys.state;
    var sys' := Next(sys, ReservePort(id, e), luck);
    ReserveOutcomes(s, id, e, luck);
    if !Exec(s, ReserveScript(s, id, e), luck).completed {
      AskedSurvives(sys, sys', id, e);
    } else {
      var b := s.networks[id].bridge;
      A.ScanIsFree(s, b);
      PluggedSurvives(sys, sys', id, e, Scan(UsedPorts(s.ovs, b)));
    }
  }

  lemma AskedSurvives(sys: Sys, sys': Sys, id: Id, e: Id)
    requires Survives(sys) && FreshEndpoint(sys, e)
    requires sys' == sys.(docker := sys.docker.(eps := sys.docker.eps[e := Endpoint(id, false)]))
    ensures Survives(sys')
  {
    hide Veth, OvsOk, Backed, MirrorsKnown;
    assert forall n :: n in sys.state.networks ==> e !in sys.state.networks[n].containers;
    hide ContainersMatch;
  }

  lemma PluggedSurvives(sys: Sys, sys': Sys, id: Id, e: Id, p: nat)
    requires Survives(sys) && FreshEndpoint(sys, e)
    requires id in sys.state.networks && sys.state.networks[id].bridge in sys.state.bridges
    requires Veth(e) !in sys.state.ovs && p >= 1 && p !in UsedPorts(sys.state.ovs, sys.state.networks[id].bridge)
    requires A.Reserved(sys, sys', id, e, p)
    ensures Survives(sys')
  {
    var s, s' := sys.state, sys'.state;
    hide LiveNumbers, ContainersMatch, Supported;
    assert OvsOk(s') by {
      SupportedOvs(sys);
      A.ReserveOvs(s, s.networks[id].bridge, p, Veth(e));
    }
    PluggedSupported(sys, sys', id, e, p);
    PluggedNumbers(sys, sys', id, e, p);
  }

  lemma SupportedOvs(sys: Sys)
    requires Supported(sys)
    ensures OvsOk(sys.state)
  {
  }

  lemma PluggedNumbers(sys: Sys, sys': Sys, id: Id, e: Id, p: nat)
    requires LiveNumbers(sys) && ContainersMatch(sys.state) && FreshEndpoint(sys, e)
    requires id in sys.state.networks && A.Reserved(sys, sys', id, e, p)
    ensures LiveNumbers(sys') && ContainersMatch(sys'.state)
  {
    forall e' | e' in sys.docker.eps ensures Veth(e') != Veth(e) {
      VethNames(e, e');
    }
    hide Veth;
  }

  lemma PluggedSupported(sys: Sys, sys': Sys, id: Id, e: Id, p: nat)
    requires ContainersMatch(sys.state) && Supported(sys) && FreshEndpoint(sys, e) && id in sys.state.networks
    requires A.Reserved(sys, sys', id, e, p) && OvsOk(sys'.state)
    ensures Supported(sys')
  {
    hide Veth, OvsOk, Backed;
    assert forall n :: n in sys.state.networks ==> e !in sys.state.networks[n].containers;
    PluggedBacked(sys, sys', id, e, p);
    hide ContainersMatch;
  }

  lemma PluggedBacked(sys: Sys, sys': Sys, id: Id, e: Id, p: nat)
    requires Backed(sys.state) && e !in sys.state.ofPorts && id in sys.state.networks && A.Reserved(sys, sys', id, e, p)
    ensures Backed(sys'.state)
  {
    hide Veth, IsContainerPort;
    var s, s' := sys.state, sys'.state;
    forall name | name in s'.ovs && IsContainerPort(name)
      ensures exists x :: x in s'.ofPorts && Veth(x) == name && s'.ofPorts[x].port == s'.ovs[name].port
    {
      if name == Veth(e) {
        assert e in s'.ofPorts;
      } else {
        var x :| x in s.ofPorts && Veth(x) == name && s.ofPorts[x].port == s.ovs[name].port;
        assert x in s'.ofPorts;
      }
    }
  }

  /** Where a join can stop: before its record, with rules and interfaces changed, or after it. */
  lemma JoinOutcomes(s: State, id: Id, e: Id, j: Joined, luck: Luck)
    ensures var r := Exec(s, JoinScript(s, id, e, j), luck);
            var port := if e in s.ofPorts then s.ofPorts[e].port else 0;
            var s1 := s.(rules := r.state.rules, faucet := r.state.faucet);
            if r.completed then id in s.networks && r.state == Perform(s1, RecordJoin(id, e, Reservation(port, Some(j))))
            else r.state == s1
  {
    hide Exec, JoinRules, AddRules;
    if id !in s.networks {
      assert [Panic] == [Panic] + [];
      ExecCons(s, Panic, [], luck);
    } else {
      var net := s.networks[id];
      var port := if e in s.ofPorts then s.ofPorts[e].port else 0;
      var merge := MergeIfaces(net.name, map[port := Container(j.description, net.vlan, Labels.PortAcl(j.portAcl, net.defaultAcl, net.name))]);
      var record := RecordJoin(id, e, Reservation(port, Some(j)));
      var rules, through, luck' := ExecRulesAny(s, AddRules(JoinRules(net.bridge, j)), [merge] + ([Call] + [record]), luck);
      assert JoinScript(s, id, e, j) == AddRules(JoinRules(net.bridge, j)) + ([merge] + ([Call] + [record]));
      hide JoinScript, Perform;
      if through {
        JoinTailOutcomes(s.(rules := rules), merge, record, luck');
        RecordKeepsRest(s.(rules := rules, faucet := Perform(s.(rules := rules), merge).faucet), id, e, Reservation(port, Some(j)));
      }
    }
  }

  lemma JoinTailOutcomes(s: State, merge: Step, record: Step, luck: Luck)
    requires merge.MergeIfaces? && record.RecordJoin?
    ensures var r := Exec(s, [merge] + ([Call] + [record]), luck);
            var s2 := s.(faucet := Perform(s, merge).faucet);
            if r.completed then r.state == Perform(s2, record) else r.state == s || r.state == s2
  {
    hide Exec;
    ExecCons(s, merge, [Call] + [record], luck);
    var s2 := s.(faucet := Perform(s, merge).faucet);
    assert Perform(s, merge) == s2;
    hide Perform;
    ExecCall(s2, [record], Spend(luck));
    assert [record] == [record] + [];
    ExecCons(s2, record, [], Spend(Spend(luck)));
    ExecNil(Perform(s2, record), Spend(Spend(luck)));
  }

  lemma RecordKeepsRest(s: State, id: Id, e: Id, r: Reservation)
    ensures var s' := Perform(s, RecordJoin(id, e, r)); s'.rules == s.rules && s'.faucet == s.faucet
  {
    hide Table, WithoutBridge;
  }

  lemma JoinSurvives(sys: Sys, id: Id, e: Id, j: Joined, luck: Luck)
    requires Survives(sys) && Legal(sys, JoinContainer(id, e, j))
    ensures Survives(Next(sys, JoinContainer(id, e, j), luck))
  {
    var s := sys.state;
    var sys' := Next(sys, JoinContainer(id, e, j), luck);
    JoinOutcomes(s, id, e, j, luck);
    var s1 := s.(rules := sys'.state.rules, faucet := sys'.state.faucet);
    var sys1 := Sys(sys'.docker, s1);
    TriedSurvives(sys, sys1, id, e);
    if Exec(s, JoinScript(s, id, e, j), luck).completed {
      var port := if e in s.ofPorts then s.ofPorts[e].port else 0;
      RecordedSurvives(sys1, id, e, Reservation(port, Some(j)));
    }
  }

  lemma TriedSurvives(sys: Sys, sys': Sys, id: Id, e: Id)
    requires Survives(sys) && e in sys.docker.eps && sys.docker.eps[e].network == id
    requires sys'.docker == sys.docker.(eps := sys.docker.eps[e := Endpoint(id, true)])
    requires sys'.state == sys.state.(rules := sys'.state.rules, faucet := sys'.state.faucet)
    ensures Survives(sys')
  {
    hide Veth, IsContainerPort;
  }

  lemma RecordedSurvives(sys: Sys, id: Id, e: Id, r: Reservation)
    requires Survives(sys) && e in sys.docker.eps && sys.docker.eps[e].network == id && id in sys.state.networks
    requires r.joined.Some? && r.port == if e in sys.state.ofPorts then sys.state.ofPorts[e].port else 0
    ensures Survives(sys.(state := Perform(sys.state, RecordJoin(id, e, r))))
  {
    hide Veth, IsContainerPort, OvsOk;
    var s := sys.state;
    var s' := Perform(s, RecordJoin(id, e, r));
    var sys' := sys.(state := s');
    var net := s.networks[id];
    var c := ContainerState(r.port, r.joined.value.hostIP);
    assert s' == s.(ofPorts := s.ofPorts[e := r], networks := s.networks[id := net.(containers := net.containers[e := c])]);
    hide Backed;
    RecordedNumbers(sys, sys', id, e, r, c);
    RecordedSupported(sys, sys', id, e, r, c);
  }

  lemma RecordedNumbers(sys: Sys, sys': Sys, id: Id, e: Id, r: Reservation, c: ContainerState)
    requires LiveNumbers(sys) && ContainersMatch(sys.state) && MirrorsKnown(sys.state) && id in sys.state.networks
    requires c.port == r.port == if e in sys.state.ofPorts then sys.state.ofPorts[e].port else 0
    requires var s := sys.state;
             sys' == sys.(state := s.(ofPorts := s.ofPorts[e := r],
                                      networks := s.networks[id := s.networks[id].(containers := s.networks[id].containers[e := c])]))
    ensures LiveNumbers(sys') && ContainersMatch(sys'.state) && MirrorsKnown(sys'.state)
  {
    hide Veth;
  }

  lemma RecordedSupported(sys: Sys, sys': Sys, id: Id, e: Id, r: Reservation, c: ContainerState)
    requires ContainersMatch(sys.state) && Supported(sys) && e in sys.docker.eps && sys.docker.eps[e].network == id
    requires id in sys.state.networks && r.port == if e in sys.state.ofPorts then sys.state.ofPorts[e].port else 0
    requires var s := sys.state;
             sys' == sys.(state := s.(ofPorts := s.ofPorts[e := r],
                                      networks := s.networks[id := s.networks[id].(containers := s.networks[id].containers[e := c])]))
    ensures Supported(sys')
  {
    hide Veth, IsContainerPort, Backed, ContainersMatch;
    var s, s' := sys.state, sys'.state;
    assert s'.ovs == s.ovs && s'.bridges == s.bridges && OvsOk(s');
    hide OvsOk;
    NotedContainers(s.networks, id, e, c);
    StaysSupported(sys, sys', e);
  }

  lemma NotedContainers(networks: map<Id, Network>, id: Id, e: Id, c: ContainerState)
    requires id in networks
    ensures var networks' := networks[id := networks[id].(containers := networks[id].containers[e := c])];
            && networks'.Keys == networks.Keys
            && forall n, x :: n in networks && x in networks'[n].containers ==> x in networks[n].containers || (x == e && n == id)
  {
  }

  /** Reservations and container entries that change for e alone, and only in e's own network. */
  lemma StaysSupported(sys: Sys, sys': Sys, e: Id)
    requires Supported(sys) && sys'.docker == sys.docker && OvsOk(sys'.state)
    requires var s, s' := sys.state, sys'.state;
             && s'.ovs == s.ovs && s'.networks.Keys == s.networks.Keys
             && (forall x :: x in s.ofPorts && (x != e || Veth(e) in s.ovs) ==>
                   x in s'.ofPorts && s'.ofPorts[x].port == s.ofPorts[x].port)
             && (forall n, x :: n in s.networks && x in s'.networks[n].containers ==>
                   x in s.networks[n].containers || (x == e && e in sys.docker.eps && sys.docker.eps[e].network == n))
    ensures Supported(sys')
  {
    hide Veth, OvsOk;
    assert Backed(sys'.state) by {
      hide IsContainerPort;
      StaysBacked(sys.state, sys'.state);
    }
    hide Backed, IsContainerPort;
  }

  /** Container ports stay backed when they and the reservations behind them stay. */
  lemma StaysBacked(s: State, s': State)
    requires Backed(s)
    requires forall name :: name in s'.ovs && IsContainerPort(name) ==> name in s.ovs && s'.ovs[name].port == s.ovs[name].port
    requires forall x :: x in s.ofPorts && Veth(x) in s'.ovs ==> x in s'.ofPorts && s'.ofPorts[x].port == s.ofPorts[x].port
    ensures Backed(s')
  {
    hide Veth, IsContainerPort;
    forall name | name in s'.ovs && IsContainerPort(name)
      ensures exists x :: x in s'.ofPorts && Veth(x) == name && s'.ofPorts[x].port == s'.ovs[name].port
    {
      var x :| x in s.ofPorts && Veth(x) == name && s.ofPorts[x].port == s.ovs[name].port;
      assert x in s'.ofPorts;
    }
  }

  /** Where a leave can stop: untouched, unplugged, or forgotten. */
  lemma LeaveOutcomes(s: State, id: Id, e: Id, luck: Luck)
    ensures var s' := Exec(s, LeaveScript(s, id, e), luck).state;
            var s1 := s.(ovs := s.ovs - {Veth(e)}, rules := s'.rules, faucet := s'.faucet);
            || s' == s
            || s' == s1
            || (id in s.networks && s' == Perform(s1, ForgetEndpoint(id, e)))
  {
    hide Exec, JoinRules, DelRules, Veth;
    if e !in s.ofPorts || Veth(e) !in s.ovs || id !in s.networks {
      assert [Panic] == [Panic] + [];
      ExecCons(s, Panic, [], luck);
    } else {
      var net := s.networks[id];
      var unplug, del := DelPort(net.bridge, Veth(e)), DelIface(net.name, s.ovs[Veth(e)].port);
      var tail := LeaveTail(s, id, e, net.bridge);
      assert LeaveScript(s, id, e) == [unplug] + ([del] + tail);
      hide LeaveScript, LeaveTail;
      ExecCons(s, unplug, [del] + tail, luck);
      var s1 := s.(ovs := s.ovs - {Veth(e)});
      assert Perform(s, unplug) == s1;
      ExecCons(s1, del, tail, Spend(luck));
      var s2 := s1.(faucet := Perform(s1, del).faucet);
      assert Perform(s1, del) == s2;
      hide Perform;
      LeaveTailOutcomes(s, s2, id, e, net.bridge, Spend(Spend(luck)));
      ForgetKeepsRest(s2.(rules := Exec(s2, tail, Spend(Spend(luck))).state.rules), id, e);
    }
  }

  lemma ForgetKeepsRest(s: State, id: Id, e: Id)
    ensures var s' := Perform(s, ForgetEndpoint(id, e)); s'.rules == s.rules && s'.faucet == s.faucet
  {
    hide Table, WithoutBridge;
  }

  lemma LeaveTailOutcomes(s0: State, s: State, id: Id, e: Id, bridge: string, luck: Luck)
    requires e in s0.ofPorts
    ensures var s' := Exec(s, LeaveTail(s0, id, e, bridge), luck).state;
            var s1 := s.(rules := s'.rules);
            s' == s1 || s' == Perform(s1, ForgetEndpoint(id, e))
  {
    hide Exec, JoinRules, DelRules;
    var r, forget := s0.ofPorts[e], ForgetEndpoint(id, e);
    if r.joined.None? {
      assert [Panic] == [Panic] + [];
      ExecCons(s, Panic, [], luck);
    } else {
      var rules, through, luck' := ExecRulesAny(s, DelRules(JoinRules(bridge, r.joined.value)), [forget], luck);
      if through {
        var s1 := s.(rules := rules);
        assert [forget] == [forget] + [];
        ExecCons(s1, forget, [], luck');
        ExecNil(Perform(s1, forget), luck');
      }
    }
  }

  lemma LeaveSurvives(sys: Sys, id: Id, e: Id, luck: Luck)
    requires Survives(sys) && Legal(sys, LeaveContainer(id, e))
    ensures Survives(Next(sys, LeaveContainer(id, e), luck))
  {
    hide Veth, IsContainerPort, LiveNumbers, ContainersMatch, MirrorsKnown, Supported;
    var s := sys.state;
    var sys' := Next(sys, LeaveContainer(id, e), luck);
    LeaveOutcomes(s, id, e, luck);
    var sys0 := sys.(docker := sys'.docker);
    LeftSurvives(sys, sys0, e);
    if sys'.state != s {
      var s1 := s.(ovs := s.ovs - {Veth(e)}, rules := sys'.state.rules, faucet := sys'.state.faucet);
      var sys1 := Sys(sys'.docker, s1);
      UnpluggedSurvives(sys0, sys1);
      if sys'.state != s1 {
        ForgottenSurvives(sys1, id, e) by { OneNetwork(sys, sys1, id, e); }
      }
    }
  }

  lemma OneNetwork(sys: Sys, sys1: Sys, id: Id, e: Id)
    requires Supported(sys) && e in sys.docker.eps && sys.docker.eps[e].network == id
    requires sys1.state.networks == sys.state.networks
    ensures forall n :: n in sys1.state.networks && e in sys1.state.networks[n].containers ==> n == id
  {
  }

  lemma LeftSurvives(sys: Sys, sys': Sys, e: Id)
    requires Survives(sys) && sys' == sys.(docker := sys.docker.(eps := sys.docker.eps - {e}))
    ensures Survives(sys')
  {
    hide Veth, IsContainerPort;
  }

  /** Taking interfaces off bridges disturbs nothing. */
  lemma UnpluggedSurvives(sys: Sys, sys': Sys)
    requires Survives(sys) && sys'.docker == sys.docker
    requires sys'.state == sys.state.(ovs := sys'.state.ovs, rules := sys'.state.rules, faucet := sys'.state.faucet)
    requires forall x :: x in sys'.state.ovs ==> x in sys.state.ovs && sys'.state.ovs[x] == sys.state.ovs[x]
    ensures Survives(sys')
  {
    hide Veth, IsContainerPort;
    StaysBacked(sys.state, sys'.state);
    hide Backed;
  }

  lemma ForgottenSurvives(sys: Sys, id: Id, e: Id)
    requires Survives(sys) && id in sys.state.networks && Veth(e) !in sys.state.ovs
    requires forall n :: n in sys.state.networks && e in sys.state.networks[n].containers ==> n == id
    ensures Survives(sys.(state := Perform(sys.state, ForgetEndpoint(id, e))))
  {
    hide Veth, IsContainerPort, OvsOk;
    var s := sys.state;
    var net := s.networks[id];
    var s' := Perform(s, ForgetEndpoint(id, e));
    var sys' := sys.(state := s');
    assert s' == s.(ofPorts := s.ofPorts - {e}, networks := s.networks[id := net.(containers := net.containers - {e})]);
    hide Backed;
    ForgottenNumbers(sys, sys', id, e);
    ForgottenSupported(sys, sys', id, e);
  }

  lemma ForgottenNumbers(sys: Sys, sys': Sys, id: Id, e: Id)
    requires LiveNumbers(sys) && ContainersMatch(sys.state) && MirrorsKnown(sys.state) && id in sys.state.networks
    requires forall n :: n in sys.state.networks && e in sys.state.networks[n].containers ==> n == id
    requires var s := sys.state;
             sys' == sys.(state := s.(ofPorts := s.ofPorts - {e},
                                      networks := s.networks[id := s.networks[id].(containers := s.networks[id].containers - {e})]))
    ensures LiveNumbers(sys') && ContainersMatch(sys'.state) && MirrorsKnown(sys'.state)
  {
    hide Veth;
  }

  lemma ForgottenSupported(sys: Sys, sys': Sys, id: Id, e: Id)
    requires Supported(sys) && id in sys.state.networks && Veth(e) !in sys.state.ovs
    requires var s := sys.state;
             sys' == sys.(state := s.(ofPorts := s.ofPorts - {e},
                                      networks := s.networks[id := s.networks[id].(containers := s.networks[id].containers - {e})]))
    ensures Supported(sys')
  {
    var s, s' := sys.state, sys'.state;
    assert OvsOk(s');
    hide Veth, IsContainerPort, OvsOk, Backed;
    assert s'.networks.Keys == s.networks.Keys && s'.ovs == s.ovs;
    assert forall n :: n in s.networks ==> s'.networks[n].containers.Keys <= s.networks[n].containers.Keys;
    StaysSupported(sys, sys', e);
  }
}
