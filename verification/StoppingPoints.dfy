/**
 Exactly what a handler leaves behind when a command fails in the middle of it, point by point.  No
 handler undoes anything, so the order of its steps is what a panic shows.
 */
module StoppingPoints {
  import opened Types
  import opened Ports
  import opened Rules
  import opened World
  import opened Handlers
  import A = Agreement
  import N = NetworkAgreement
  import Labels

  // -------------------------------------------------------------------------------------
  // Join

  lemma FaultStep(s: State, step: Step, rest: seq<Step>, k: nat)
    requires !Infallible(step) && Enabled(s, step)
    ensures Exec(s, [step] + rest, FaultAfter(k)) ==
            if k == 0 then Outcome(s, false) else Exec(Perform(s, step), rest, FaultAfter(k - 1))
  {
    hide Exec, Perform, Enabled;
    ExecCons(s, step, rest, FaultAfter(k));
  }

  lemma FaultAddRule(s: State, r: Rule, rest: seq<Step>, k: nat)
    ensures Exec(s, [AddRule(r)] + rest, FaultAfter(k)) ==
            if k == 0 then Outcome(s, false) else Exec(s.(rules := s.rules + [r]), rest, FaultAfter(k - 1))
  {
    hide Exec, Table, WithoutBridge, UsedPorts;
    FaultStep(s, AddRule(r), rest, k);
    assert Perform(s, AddRule(r)) == s.(rules := s.rules + [r]);
  }

  /** A fault among rules that are being appended leaves those in front of it. */
  lemma {:induction false} FaultAddRules(s: State, rules: seq<Rule>, rest: seq<Step>, k: nat)
    ensures Exec(s, AddRules(rules) + rest, FaultAfter(k)) ==
            if k < |rules| then Outcome(s.(rules := s.rules + rules[..k]), false)
            else Exec(s.(rules := s.rules + rules), rest, FaultAfter(k - |rules|))
    decreases |rules|
  {
    hide Exec, Perform, Enabled;
    if rules == [] {
      assert AddRules(rules) + rest == rest && s.rules + rules == s.rules;
    } else {
      AddRulesHead(rules, rest);
      hide AddRules;
      FaultAddRule(s, rules[0], AddRules(rules[1..]) + rest, k);
      if k == 0 {
        assert s.rules + rules[..0] == s.rules;
      } else {
        var s1 := s.(rules := s.rules + [rules[0]]);
        FaultAddRules(s1, rules[1..], rest, k - 1);
        Regroup(s.rules, rules);
        if k < |rules| {
          RegroupUpTo(s.rules, rules, k);
        }
      }
    }
  }

  lemma RegroupUpTo(all: seq<Rule>, rules: seq<Rule>, k: nat)
    requires 0 < k < |rules|
    ensures all + [rules[0]] + rules[1..][..k - 1] == all + rules[..k]
  {
  }

  /** A join that fails at its k-th command has appended k of its rules; only after all of them does the
      controller get the interface, and only after that the driver's own maps. */
  lemma JoinStops(s: State, id: Id, e: Id, j: Joined, k: nat)
    requires id in s.networks && e in s.ofPorts
    ensures var net, p, rules := s.networks[id], s.ofPorts[e].port, JoinRules(s.networks[id].bridge, j);
            var acl := Labels.PortAcl(j.portAcl, net.defaultAcl, net.name);
            Exec(s, JoinScript(s, id, e, j), FaultAfter(k)) ==
            if k <= |rules| then Outcome(s.(rules := s.rules + rules[..k]), false)
            else if k == |rules| + 1 then
              Outcome(s.(rules := s.rules + rules,
                         faucet := s.faucet[net.name := Table(s, net.name)[p := Container(j.description, net.vlan, acl)]]), false)
            else Outcome(A.JoinedState(s, id, e, j), true)
  {
    hide Exec, AddRules, JoinRules, Perform, A.JoinedState, Labels.PortAcl;
    var net, p, rules := s.networks[id], s.ofPorts[e].port, JoinRules(s.networks[id].bridge, j);
    var iface := Container(j.description, net.vlan, Labels.PortAcl(j.portAcl, net.defaultAcl, net.name));
    var merge, record := MergeIfaces(net.name, map[p := iface]), RecordJoin(id, e, Reservation(p, Some(j)));
    assert JoinScript(s, id, e, j) == AddRules(rules) + ([merge] + ([Call] + [record]));
    hide JoinScript;
    FaultAddRules(s, rules, [merge] + ([Call] + [record]), k);
    if k >= |rules| {
      assert rules[..|rules|] == rules;
      JoinTailStops(s, id, e, j, k - |rules|);
    }
  }

  lemma JoinTailStops(s: State, id: Id, e: Id, j: Joined, k: nat)
    requires id in s.networks && e in s.ofPorts
    ensures var net, p := s.networks[id], s.ofPorts[e].port;
            var iface := Container(j.description, net.vlan, Labels.PortAcl(j.portAcl, net.defaultAcl, net.name));
            var merge, record := MergeIfaces(net.name, map[p := iface]), RecordJoin(id, e, Reservation(p, Some(j)));
            var s1 := s.(rules := s.rules + JoinRules(net.bridge, j));
            Exec(s1, [merge] + ([Call] + [record]), FaultAfter(k)) ==
            if k == 0 then Outcome(s1, false)
            else if k == 1 then Outcome(s1.(faucet := s.faucet[net.name := Table(s, net.name)[p := iface]]), false)
            else Outcome(A.JoinedState(s, id, e, j), true)
  {
    hide Exec, JoinRules, Perform, A.JoinedState, Labels.PortAcl;
    var net, p := s.networks[id], s.ofPorts[e].port;
    var iface := Container(j.description, net.vlan, Labels.PortAcl(j.portAcl, net.defaultAcl, net.name));
    var merge, record := MergeIfaces(net.name, map[p := iface]), RecordJoin(id, e, Reservation(p, Some(j)));
    var s1 := s.(rules := s.rules + JoinRules(net.bridge, j));
    FaultStep(s1, merge, [Call] + [record], k);
    if k > 0 {
      MergedOne(s1, net.name, p, iface);
      var s2 := Perform(s1, merge);
      ExecCall(s2, [record], FaultAfter(k - 1));
      assert [record] == [record] + [];
      ExecCons(s2, record, [], Spend(FaultAfter(k - 1)));
      ExecNil(Perform(s2, record), Spend(FaultAfter(k - 1)));
      A.JoinEffect(s, id, e, j, s1.rules);
      A.JoinedRules(s, id, e, j);
    }
  }

  lemma MergedOne(s: State, dp: string, p: nat, iface: Iface)
    ensures Perform(s, MergeIfaces(dp, map[p := iface])) == s.(faucet := s.faucet[dp := Table(s, dp)[p := iface]])
  {
    assert Table(s, dp) + map[p := iface] == Table(s, dp)[p := iface];
  }

  // -------------------------------------------------------------------------------------
  // Leave

  lemma {:induction false} FaultDelRules(s: State, rules: seq<Rule>, rest: seq<Step>, k: nat)
    requires multiset(rules) <= multiset(s.rules)
    ensures Exec(s, DelRules(rules) + rest, FaultAfter(k)) ==
            if k < |rules| then Outcome(s.(rules := RemoveEach(s.rules, rules[..k])), false)
            else Exec(s.(rules := RemoveEach(s.rules, rules)), rest, FaultAfter(k - |rules|))
    decreases |rules|
  {
    hide Exec, RemoveFirst;
    if rules == [] {
      assert DelRules(rules) + rest == rest;
    } else {
      assert DelRules(rules) + rest == [DelRule(rules[0])] + (DelRules(rules[1..]) + rest);
      TakeOne(s.rules, rules);
      FaultStep(s, DelRule(rules[0]), DelRules(rules[1..]) + rest, k);
      hide DelRules;
      if k > 0 {
        var s1 := s.(rules := RemoveFirst(s.rules, rules[0]));
        assert Perform(s, DelRule(rules[0])) == s1;
        hide Perform;
        FaultDelRules(s1, rules[1..], rest, k - 1);
        if k < |rules| {
          assert rules[..k][0] == rules[0] && rules[..k][1..] == rules[1..][..k - 1];
        }
      }
    }
  }

  /** A leave that fails at its k-th command: the port goes first, then its interface, then the rules
      one by one; the driver's own maps forget the endpoint only when all of that is done. */
  lemma LeaveStops(s: State, id: Id, e: Id, k: nat)
    requires id in s.networks && e in s.ofPorts && s.ofPorts[e].joined.Some?
    requires Veth(e) in s.ovs && s.ovs[Veth(e)].bridge == s.networks[id].bridge
    requires multiset(JoinRules(s.networks[id].bridge, s.ofPorts[e].joined.value)) <= multiset(s.rules)
    ensures var net, p, j := s.networks[id], s.ovs[Veth(e)].port, s.ofPorts[e].joined.value;
            var rules, unplugged := JoinRules(net.bridge, j), s.ovs - {Veth(e)};
            var faucet := s.faucet[net.name := Table(s, net.name) - {p}];
            Exec(s, LeaveScript(s, id, e), FaultAfter(k)) ==
            if k == 0 then Outcome(s, false)
            else if k == 1 then Outcome(s.(ovs := unplugged), false)
            else if k < |rules| + 2 then
              Outcome(s.(ovs := unplugged, faucet := faucet, rules := RemoveEach(s.rules, rules[..k - 2])), false)
            else Outcome(A.LeftState(s, id, e, j), true)
  {
    hide Exec, DelRules, JoinRules, Veth, RemoveEach, Perform;
    var net, j := s.networks[id], s.ofPorts[e].joined.value;
    var p, rules := s.ovs[Veth(e)].port, JoinRules(net.bridge, j);
    var unplug, del, forget := DelPort(net.bridge, Veth(e)), DelIface(net.name, p), ForgetEndpoint(id, e);
    assert LeaveScript(s, id, e) == [unplug] + ([del] + (DelRules(rules) + [forget]));
    hide LeaveScript;
    FaultStep(s, unplug, [del] + (DelRules(rules) + [forget]), k);
    if k > 0 {
      Unplugs(s, net.bridge, Veth(e));
      var s1 := s.(ovs := s.ovs - {Veth(e)});
      FaultStep(s1, del, DelRules(rules) + [forget], k - 1);
      if k > 1 {
        DeletesIface(s1, net.name, p);
        var s2 := s1.(faucet := s.faucet[net.name := Table(s, net.name) - {p}]);
        hide A.LeftState;
        FaultDelRules(s2, rules, [forget], k - 2);
        if k >= |rules| + 2 {
          var s3 := s2.(rules := RemoveEach(s.rules, rules));
          assert [forget] == [forget] + [];
          ExecCons(s3, forget, [], FaultAfter(k - 2 - |rules|));
          ExecNil(Perform(s3, forget), FaultAfter(k - 2 - |rules|));
          Forgets(s, s3, id, e, j);
        }
      }
    }
  }

  lemma Unplugs(s: State, bridge: string, name: string)
    ensures Perform(s, DelPort(bridge, name)) == s.(ovs := s.ovs - {name})
  {
  }

  lemma DeletesIface(s: State, dp: string, p: nat)
    ensures Perform(s, DelIface(dp, p)) == s.(faucet := s.faucet[dp := Table(s, dp) - {p}])
  {
  }

  lemma Forgets(s: State, s3: State, id: Id, e: Id, j: Joined)
    requires id in s.networks && e in s.ofPorts && Veth(e) in s.ovs
    requires var net, p := s.networks[id], s.ovs[Veth(e)].port;
             s3 == s.(ovs := s.ovs - {Veth(e)}, faucet := s.faucet[net.name := Table(s, net.name) - {p}],
                      rules := RemoveEach(s.rules, JoinRules(net.bridge, j)))
    ensures Perform(s3, ForgetEndpoint(id, e)) == A.LeftState(s, id, e, j)
  {
    hide JoinRules, Veth, RemoveEach, Table;
  }

  // -------------------------------------------------------------------------------------
  // Reserve, delete and create

  /** A reserve either plugs the port in and records it, or does neither. */
  lemma ReserveStops(s: State, id: Id, e: Id, k: nat)
    requires id in s.networks && s.networks[id].bridge in s.bridges && Veth(e) !in s.ovs && OvsOk(s)
    ensures var b := s.networks[id].bridge;
            var p := Scan(UsedPorts(s.ovs, b));
            Exec(s, ReserveScript(s, id, e), FaultAfter(k)) ==
            if k == 0 then Outcome(s, false)
            else Outcome(s.(ovs := s.ovs[Veth(e) := At(b, p)], ofPorts := s.ofPorts[e := Reservation(p, None)]), true)
  {
    hide Exec, Veth, Scan;
    var b := s.networks[id].bridge;
    var p := Scan(UsedPorts(s.ovs, b));
    A.ScanIsFree(s, b);
    var add, record := AddPort(b, p, Veth(e)), RecordPort(e, p);
    assert ReserveScript(s, id, e) == [add] + [record];
    FaultStep(s, add, [record], k);
    if k > 0 {
      var s1 := Perform(s, add);
      assert [record] == [record] + [];
      ExecCons(s1, record, [], FaultAfter(k - 1));
      ExecNil(Perform(s1, record), FaultAfter(k - 1));
    }
  }

  /** A deletion takes the datapath away first, then the masquerading rule of a NAT network, and with
      the bridge its own record of the network. */
  lemma DeleteStops(s: State, id: Id, k: nat)
    requires id in s.networks && s.networks[id].bridge in s.bridges
    requires s.networks[id].mode == Nat ==> MasqueradeOut(s.networks[id].cidr) in s.rules
    ensures var net := s.networks[id];
            var last := if net.mode == Nat then 3 else 2;
            Exec(s, DeleteScript(s, id), FaultAfter(k)) ==
            if k == 0 then Outcome(s, false)
            else if k == 1 then Outcome(s.(faucet := s.faucet - {net.name}), false)
            else if k < last then
              Outcome(s.(faucet := s.faucet - {net.name}, rules := RemoveFirst(s.rules, MasqueradeOut(net.cidr))), false)
            else Outcome(N.DeletedState(s, id), true)
  {
    hide Exec, RemoveFirst, Perform, WithoutBridge;
    var net := s.networks[id];
    var tail := [DelBridge(net.bridge), ForgetNetwork(id)];
    var del, rule := DelDp(net.name), DelRule(MasqueradeOut(net.cidr));
    var s1 := s.(faucet := s.faucet - {net.name});
    assert DeleteScript(s, id) == [del] + ((if net.mode == Nat then [rule] else []) + tail);
    hide DeleteScript;
    FaultStep(s, del, (if net.mode == Nat then [rule] else []) + tail, k);
    if k > 0 {
      assert Perform(s, del) == s1 by { DropsDp(s, net.name); }
      if net.mode == Nat {
        FaultStep(s1, rule, tail, k - 1);
        if k > 1 {
          var s2 := s1.(rules := RemoveFirst(s.rules, MasqueradeOut(net.cidr)));
          assert Perform(s1, rule) == s2 by { DropsRule(s1, MasqueradeOut(net.cidr)); }
          TearDown(s2, net.bridge, id, k - 2);
        }
      } else {
        assert [] + tail == tail;
        TearDown(s1, net.bridge, id, k - 1);
      }
    }
  }

  lemma DropsDp(s: State, dp: string)
    ensures Perform(s, DelDp(dp)) == s.(faucet := s.faucet - {dp})
  {
  }

  lemma DropsRule(s: State, r: Rule)
    ensures Perform(s, DelRule(r)) == s.(rules := RemoveFirst(s.rules, r))
  {
    hide RemoveFirst;
  }

  /** The bridge and the record of its network go together. */
  lemma TearDown(s: State, bridge: string, id: Id, k: nat)
    requires bridge in s.bridges
    ensures Exec(s, [DelBridge(bridge), ForgetNetwork(id)], FaultAfter(k)) ==
            if k == 0 then Outcome(s, false)
            else Outcome(s.(bridges := s.bridges - {bridge}, ovs := WithoutBridge(s.ovs, bridge),
                            networks := s.networks - {id}, mirrors := s.mirrors - {id}), true)
  {
    hide Exec;
    assert [DelBridge(bridge), ForgetNetwork(id)] == [DelBridge(bridge)] + [ForgetNetwork(id)];
    FaultStep(s, DelBridge(bridge), [ForgetNetwork(id)], k);
    if k > 0 {
      var s1 := Perform(s, DelBridge(bridge));
      assert [ForgetNetwork(id)] == [ForgetNetwork(id)] + [];
      ExecCons(s1, ForgetNetwork(id), [], FaultAfter(k - 1));
      ExecNil(Perform(s1, ForgetNetwork(id)), FaultAfter(k - 1));
    }
  }

  /** Initialising a bridge: if it cannot be built there is none of that name any more, and otherwise it stands
      with its ports, with a NAT network's rule only if that command was reached. */
  lemma InitStops(s: State, net: Network, attached: map<string, nat>, luck: Luck, name: string)
    requires AttachedOk(s, net, attached)
    ensures var s' := InitOutcome(s, net, attached, luck);
            && s' == s.(bridges := s'.bridges, ovs := s'.ovs, rules := s'.rules)
            && s'.bridges == (if luck == FaultAfter(0) then s.bridges - {net.bridge} else s.bridges + {net.bridge})
            && (name in s'.ovs && s'.ovs[name].bridge == net.bridge <==> luck != FaultAfter(0) && name in attached)
            && (name in attached && luck != FaultAfter(0) ==> s'.ovs[name].port == attached[name])
            && (name in s.ovs && s.ovs[name].bridge != net.bridge ==> name in s'.ovs && s'.ovs[name] == s.ovs[name])
            && s'.rules == if net.mode == Nat && luck != FaultAfter(0) && luck != FaultAfter(1)
                           then [MasqueradeOut(net.cidr)] + s.rules else s.rules
  {
    N.InitEffect(s, net, attached, name);
    hide AttachedOk, InitState;
  }

  /** A script that does not get through its last step has done only what the steps before it did. */
  lemma {:induction false} BeforeLast(s: State, front: seq<Step>, last: Step, luck: Luck)
    requires !Infallible(last) && !Exec(s, front + [last], luck).completed
    ensures Exec(s, front + [last], luck).state == Exec(s, front, luck).state
    decreases |front|
  {
    hide Perform, Enabled;
    if front == [] {
      assert front + [last] == [last] && [last][1..] == [];
    } else {
      assert (front + [last])[0] == front[0] && (front + [last])[1..] == front[1..] + [last];
      if Infallible(front[0]) {
        BeforeLast(Perform(s, front[0]), front[1..], last, luck);
      } else if luck != FaultAfter(0) && Enabled(s, front[0]) {
        BeforeLast(Perform(s, front[0]), front[1..], last, Spend(luck));
      }
    }
  }

  predicate Notes(step: Step) {
    step.RecordExternal? || step.Call? || step.Panic?
  }

  /** Steps that only note ports down change nothing but the records of networks that are there. */
  ghost predicate Noted(s: State, s': State) {
    s' == s.(networks := s'.networks) && s'.networks.Keys == s.networks.Keys
  }

  lemma NoteOne(s: State, step: Step)
    requires Notes(step)
    ensures Noted(s, Perform(s, step))
  {
    hide Table, WithoutBridge, UsedPorts;
  }

  lemma {:induction false} ExecNotes(s: State, script: seq<Step>, luck: Luck)
    requires forall i :: 0 <= i < |script| ==> Notes(script[i])
    ensures Noted(s, Exec(s, script, luck).state)
    decreases |script|
  {
    hide Perform, Enabled;
    if script != [] {
      NoteOne(s, script[0]);
      if luck != FaultAfter(0) && Enabled(s, script[0]) {
        ExecNotes(Perform(s, script[0]), script[1..], Spend(luck));
      }
    }
  }

  lemma {:induction false} ExternalNotes(ovs: map<string, Attachment>, id: Id, names: seq<string>)
    ensures forall i :: 0 <= i < |ExternalSteps(ovs, id, names)| ==> Notes(ExternalSteps(ovs, id, names)[i])
    decreases |names|
  {
    if names != [] {
      ExternalNotes(ovs, id, names[1..]);
    }
  }

  lemma {:induction false} LookupNotes(ovs: map<string, Attachment>, names: seq<string>)
    ensures forall i :: 0 <= i < |LookupSteps(ovs, names)| ==> Notes(LookupSteps(ovs, names)[i])
    decreases |names|
  {
    if names != [] {
      LookupNotes(ovs, names[1..]);
    }
  }

  /** A creation that panics, at whatever point and for whatever reason, a missing port included, has
      configured nothing in the controller: the one merge is its last step. */
  lemma CreateStops(s: State, id: Id, net: Network, lb: nat, physical: seq<string>, copro: seq<string>, luck: Luck)
    requires !Exec(s, CreateScript(s, id, net, lb, physical, copro), luck).completed
    ensures var s' := Exec(s, CreateScript(s, id, net, lb, physical, copro), luck).state;
            && s' == s.(networks := s'.networks, mirrors := s'.mirrors)
            && (luck == FaultAfter(0) ==> s' == s)
            && (luck != FaultAfter(0) ==> id in s'.networks && id in s'.mirrors && s'.mirrors[id] == lb)
  {
    hide Exec, CreateIfaces, ExternalSteps, LookupSteps, Perform;
    var gateway := if HasGateway(net) then [RecordExternal(id, net.bridge, OF_PORT_LOCAL)] else [];
    var merge := MergeIfaces(net.name, CreateIfaces(s.ovs, s.links, net, lb, physical, copro));
    var notes := ExternalSteps(s.ovs, id, physical) + ExternalSteps(s.ovs, id, copro) + gateway
                 + LookupSteps(s.ovs, LinkEnds(s.links, net));
    var record := RecordNetwork(id, net, lb);
    assert CreateScript(s, id, net, lb, physical, copro) == [record] + (notes + [merge]);
    ExternalNotes(s.ovs, id, physical);
    ExternalNotes(s.ovs, id, copro);
    LookupNotes(s.ovs, LinkEnds(s.links, net));
    assert forall i :: 0 <= i < |notes| ==> Notes(notes[i]);
    hide CreateScript, LinkEnds, Notes;
    ExecCons(s, record, notes + [merge], luck);
    if luck != FaultAfter(0) {
      Recorded(s, id, net, lb);
      BeforeLast(Perform(s, record), notes, merge, Spend(luck));
      ExecNotes(Perform(s, record), notes, Spend(luck));
    }
  }

  lemma Recorded(s: State, id: Id, net: Network, lb: nat)
    ensures Perform(s, RecordNetwork(id, net, lb)) == s.(mirrors := s.mirrors[id := lb], networks := s.networks[id := net])
  {
  }
}
