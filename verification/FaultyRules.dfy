/**
 The rules under faults.  A join or leave cut short leaves rules behind that nobody owns, but
 never too few: in every run the rules cover what is owed, so a leave of a completed join
 always finds what it deletes.
 */
module FaultyRules {
  import opened Types
  import opened Rules
  import opened World
  import opened Handlers
  import Labels
  import opened Conservation
  import Faults
  import FaultyRuns
  import A = Agreement
  import N = NetworkAgreement

  // -------------------------------------------------------------------------------------
  // What a script can do to the rules

  ghost function Adds(script: seq<Step>): multiset<Rule> {
    if script == [] then multiset{}
    else (if script[0].AddRule? then multiset{script[0].rule} else multiset{}) + Adds(script[1..])
  }

  ghost function Dels(script: seq<Step>): multiset<Rule> {
    if script == [] then multiset{}
    else (if script[0].DelRule? then multiset{script[0].rule} else multiset{}) + Dels(script[1..])
  }

  lemma {:induction false} EditsConcat(a: seq<Step>, b: seq<Step>)
    ensures Adds(a + b) == Adds(a) + Adds(b) && Dels(a + b) == Dels(a) + Dels(b)
  {
    if a == [] {
      assert a + b == b;
    } else {
      assert (a + b)[1..] == a[1..] + b;
      EditsConcat(a[1..], b);
    }
  }

  lemma {:induction false} EditsOfRules(rules: seq<Rule>)
    ensures Adds(AddRules(rules)) == multiset(rules) && Dels(AddRules(rules)) == multiset{}
    ensures Dels(DelRules(rules)) == multiset(rules) && Adds(DelRules(rules)) == multiset{}
  {
    if rules != [] {
      assert rules == [rules[0]] + rules[1..];
      assert AddRules(rules)[1..] == AddRules(rules[1..]) && DelRules(rules)[1..] == DelRules(rules[1..]);
      EditsOfRules(rules[1..]);
    }
  }

  lemma {:induction false} NoEdits(script: seq<Step>)
    requires forall i :: 0 <= i < |script| ==> !script[i].AddRule? && !script[i].DelRule?
    ensures Adds(script) == multiset{} && Dels(script) == multiset{}
  {
    if script != [] {
      NoEdits(script[1..]);
    }
  }

  /** What one step leaves of the rules. */
  lemma StepRules(s: State, step: Step)
    ensures multiset(Perform(s, step).rules) == multiset(s.rules) + Adds([step]) - Dels([step])
  {
    assert [step][1..] == [];
    EditedRules(s, step);
    hide Perform;
    if step.DelRule? {
      RemoveFirstCount(s.rules, step.rule);
    }
    hide RemoveFirst;
  }

  lemma EditedRules(s: State, step: Step)
    ensures Perform(s, step).rules ==
            if step.AddRule? then s.rules + [step.rule] else if step.DelRule? then RemoveFirst(s.rules, step.rule) else s.rules
  {
    hide Table, WithoutBridge, NoteExternal, NoteContainer, DropContainer, RemoveFirst;
  }

  /** However far a script gets, it takes away no more than it says; and if it gets to its end, it
      has added all it says. */
  lemma {:induction false} ExecRules(s: State, script: seq<Step>, luck: Luck)
    ensures var r := Exec(s, script, luck);
            && multiset(s.rules) - Dels(script) <= multiset(r.state.rules)
            && (r.completed ==> multiset(s.rules) + Adds(script) - Dels(script) <= multiset(r.state.rules))
    decreases |script|
  {
    if script == [] {
      assert Adds(script) == multiset{} && Dels(script) == multiset{};
    } else {
      hide Exec, Perform, Adds, Dels;
      var step, s1 := script[0], Perform(s, script[0]);
      var luck' := if Infallible(step) then luck else Spend(luck);
      ExecHead(s, script, luck);
      StepRules(s, step);
      ExecRules(s1, script[1..], luck');
      EditsHead(script);
      var plus, minus := Adds([step]), Dels([step]);
      var r := Exec(s1, script[1..], luck');
      Bounds(multiset(s.rules), plus, minus, Adds(script[1..]), Dels(script[1..]), multiset(r.state.rules), r.completed);
    }
  }

  lemma ExecHead(s: State, script: seq<Step>, luck: Luck)
    requires script != []
    ensures var luck' := if Infallible(script[0]) then luck else Spend(luck);
            || Exec(s, script, luck) == Outcome(s, false)
            || Exec(s, script, luck) == Exec(Perform(s, script[0]), script[1..], luck')
  {
    hide Perform, Enabled;
  }

  lemma EditsHead(script: seq<Step>)
    requires script != []
    ensures Adds(script) == Adds([script[0]]) + Adds(script[1..]) && Dels(script) == Dels([script[0]]) + Dels(script[1..])
  {
    assert script == [script[0]] + script[1..];
    EditsConcat([script[0]], script[1..]);
  }

  lemma Bounds(before: multiset<Rule>, plus: multiset<Rule>, minus: multiset<Rule>, adds: multiset<Rule>, dels: multiset<Rule>,
               after: multiset<Rule>, completed: bool)
    requires before + plus - minus - dels <= after
    requires completed ==> before + plus - minus + adds - dels <= after
    ensures before - (minus + dels) <= after
    ensures completed ==> before + (plus + adds) - (minus + dels) <= after
  {
    forall r ensures (before - (minus + dels))[r] <= after[r] {
      assert (before + plus - minus - dels)[r] <= after[r];
    }
    if completed {
      forall r ensures (before + (plus + adds) - (minus + dels))[r] <= after[r] {
        assert (before + plus - minus + adds - dels)[r] <= after[r];
      }
    }
  }

  // -------------------------------------------------------------------------------------
  // The invariant

  ghost predicate Covered(sys: Sys, base: multiset<Rule>) {
    forall r :: multiset(sys.state.rules)[r] >= base[r] + Owed(ClaimsOf(sys), r)
  }

  /** The manager's record of a network is Docker's, endpoints belong to networks that Docker thinks
      are there, and one that has not been asked to join is not recorded as joined. */
  ghost predicate Booked(sys: Sys) {
    var d, s := sys.docker, sys.state;
    && (forall n :: n in d.nets && n in s.networks ==> d.nets[n].created && A.SameNetwork(s.networks[n], d.nets[n].network))
    && (forall e :: e in d.eps ==> d.eps[e].network in d.nets && d.nets[d.eps[e].network].created)
    && (forall e :: e in d.eps && !d.eps[e].joined && e in s.ofPorts ==> s.ofPorts[e].joined.None?)
  }

  /** Nothing that decides an endpoint's claims has changed. */
  lemma SameEndpointClaims(sys: Sys, sys': Sys)
    requires sys'.docker.eps.Keys == sys.docker.eps.Keys
    requires forall e :: e in sys.docker.eps ==> EndpointRules(sys', e) == EndpointRules(sys, e)
    ensures ClaimsOf(sys').eps == ClaimsOf(sys).eps
  {
    hide EndpointRules;
  }

  lemma StillCovered(sys: Sys, sys': Sys, base: multiset<Rule>)
    requires Covered(sys, base) && ClaimsOf(sys') == ClaimsOf(sys) && multiset(sys.state.rules) <= multiset(sys'.state.rules)
    ensures Covered(sys', base)
  {
    hide ClaimsOf;
    forall r ensures multiset(sys'.state.rules)[r] >= base[r] + Owed(ClaimsOf(sys'), r) {
      assert multiset(sys.state.rules)[r] <= multiset(sys'.state.rules)[r];
    }
  }

  lemma CoveredWith(sys: Sys, sys': Sys, base: multiset<Rule>, e: Id, block: seq<Rule>)
    requires Covered(sys, base) && (e in ClaimsOf(sys).eps ==> ClaimsOf(sys).eps[e] == [])
    requires ClaimsOf(sys') == ClaimsOf(sys).(eps := ClaimsOf(sys).eps[e := block])
    requires multiset(sys.state.rules) + multiset(block) <= multiset(sys'.state.rules)
    ensures Covered(sys', base)
  {
    hide ClaimsOf, Owed;
    forall r ensures multiset(sys'.state.rules)[r] >= base[r] + Owed(ClaimsOf(sys'), r) {
      AddEndpointClaims(ClaimsOf(sys), e, block, r);
      assert (multiset(sys.state.rules) + multiset(block))[r] <= multiset(sys'.state.rules)[r];
    }
  }

  lemma CoveredWithout(sys: Sys, sys': Sys, base: multiset<Rule>, e: Id, gone: multiset<Rule>)
    requires Covered(sys, base) && e in ClaimsOf(sys).eps && gone <= multiset(ClaimsOf(sys).eps[e])
    requires ClaimsOf(sys') == ClaimsOf(sys).(eps := ClaimsOf(sys).eps - {e})
    requires multiset(sys.state.rules) - gone <= multiset(sys'.state.rules)
    ensures Covered(sys', base)
  {
    hide ClaimsOf, Owed;
    var c := ClaimsOf(sys);
    forall r ensures multiset(sys'.state.rules)[r] >= base[r] + Owed(ClaimsOf(sys'), r) {
      DropEndpointClaims(c, e, r);
      assert (multiset(sys.state.rules) - gone)[r] <= multiset(sys'.state.rules)[r];
      assert gone[r] <= multiset(c.eps[e])[r];
    }
  }

  /** An endpoint's claims depend on its network's bridge and on its own reservation. */
  lemma SameRules(sys: Sys, sys': Sys, e: Id)
    requires e in sys.docker.eps && e in sys'.docker.eps && sys'.docker.eps[e].network == sys.docker.eps[e].network
    requires var n := sys.docker.eps[e].network;
             && (n in sys'.state.networks <==> n in sys.state.networks)
             && (n in sys.state.networks ==> sys'.state.networks[n].bridge == sys.state.networks[n].bridge)
    requires e in sys'.state.ofPorts <==> e in sys.state.ofPorts
    requires e in sys.state.ofPorts ==> sys'.state.ofPorts[e].joined == sys.state.ofPorts[e].joined
    ensures EndpointRules(sys', e) == EndpointRules(sys, e)
  {
    hide JoinRules;
  }

  // -------------------------------------------------------------------------------------
  // Scripts and their edits

  lemma JoinEdits(s: State, id: Id, e: Id, j: Joined)
    ensures Dels(JoinScript(s, id, e, j)) == multiset{}
    ensures id in s.networks ==> Adds(JoinScript(s, id, e, j)) == multiset(JoinRules(s.networks[id].bridge, j))
  {
    hide Adds, Dels, JoinRules, AddRules;
    if id in s.networks {
      var rules := JoinRules(s.networks[id].bridge, j);
      var tail := JoinTail(s, id, e, j);
      hide JoinScript;
      EditsConcat(AddRules(rules), tail);
      EditsOfRules(rules);
      NoEdits(tail);
    } else {
      NoEdits([Panic]);
    }
  }

  lemma JoinTail(s: State, id: Id, e: Id, j: Joined) returns (tail: seq<Step>)
    requires id in s.networks
    ensures JoinScript(s, id, e, j) == AddRules(JoinRules(s.networks[id].bridge, j)) + tail
    ensures forall i :: 0 <= i < |tail| ==> !tail[i].AddRule? && !tail[i].DelRule?
  {
    hide AddRules, JoinRules;
    var net, port := s.networks[id], if e in s.ofPorts then s.ofPorts[e].port else 0;
    tail := [MergeIfaces(net.name, map[port := Container(j.description, net.vlan, Labels.PortAcl(j.portAcl, net.defaultAcl, net.name))]), Call,
             RecordJoin(id, e, Reservation(port, Some(j)))];
  }

  lemma LeaveEdits(s: State, id: Id, e: Id)
    ensures Dels(LeaveScript(s, id, e)) <=
            if id in s.networks && e in s.ofPorts && s.ofPorts[e].joined.Some?
            then multiset(JoinRules(s.networks[id].bridge, s.ofPorts[e].joined.value)) else multiset{}
  {
    hide Veth, Adds, Dels, JoinRules, DelRules;
    if id in s.networks && e in s.ofPorts && s.ofPorts[e].joined.Some? && Veth(e) in s.ovs {
      var rules := JoinRules(s.networks[id].bridge, s.ofPorts[e].joined.value);
      var head := [DelPort(s.networks[id].bridge, Veth(e)), DelIface(s.networks[id].name, s.ovs[Veth(e)].port)];
      var forget := [ForgetEndpoint(id, e)];
      assert LeaveScript(s, id, e) == head + (DelRules(rules) + forget);
      hide LeaveScript;
      EditsConcat(head, DelRules(rules) + forget);
      EditsConcat(DelRules(rules), forget);
      EditsOfRules(rules);
      NoEdits(head);
      NoEdits(forget);
    } else if id in s.networks && e in s.ofPorts && Veth(e) in s.ovs {
      var script := [DelPort(s.networks[id].bridge, Veth(e)), DelIface(s.networks[id].name, s.ovs[Veth(e)].port), Panic];
      assert LeaveScript(s, id, e) == script;
      NoEdits(script);
    } else {
      NoEdits([Panic]);
    }
  }

  lemma DeleteEdits(s: State, id: Id)
    ensures Dels(DeleteScript(s, id)) ==
            if id in s.networks && s.networks[id].mode == Nat then multiset{MasqueradeOut(s.networks[id].cidr)} else multiset{}
  {
    var script := DeleteScript(s, id);
    if id in s.networks && s.networks[id].mode == Nat {
      assert script == script[..1] + (script[1..2] + script[2..]);
      EditsConcat(script[..1], script[1..2] + script[2..]);
      EditsConcat(script[1..2], script[2..]);
      NoEdits(script[..1]);
      NoEdits(script[2..]);
      assert script[1..2] == [DelRule(MasqueradeOut(s.networks[id].cidr))];
      assert script[1..2][1..] == [];
    } else {
      NoEdits(script);
    }
  }

  lemma CreateEdits(s: State, id: Id, net: Network, lb: nat, physical: seq<string>, copro: seq<string>)
    ensures Dels(CreateScript(s, id, net, lb, physical, copro)) == multiset{}
  {
    N.CreateTailFills(s, id, net, lb, physical, copro);
    hide CreateScript, N.CreateTail;
    var script := CreateScript(s, id, net, lb, physical, copro);
    assert forall i :: 0 < i < |script| ==> script[i] == N.CreateTail(s, id, net, lb, physical, copro)[i - 1];
    NoEdits(script);
  }

  // -------------------------------------------------------------------------------------
  // Endpoints

  lemma ReserveCovered(sys: Sys, id: Id, e: Id, luck: Luck, base: multiset<Rule>)
    requires Covered(sys, base) && Booked(sys) && Legal(sys, ReservePort(id, e))
    ensures Covered(Next(sys, ReservePort(id, e), luck), base) && Booked(Next(sys, ReservePort(id, e), luck))
  {
    hide Exec, ReserveScript, Veth, Covered;
    var s, sys' := sys.state, Next(sys, ReservePort(id, e), luck);
    Faults.ReserveOutcomes(s, id, e, luck);
    assert sys'.docker == sys.docker.(eps := sys.docker.eps[e := Endpoint(id, false)]);
    assert sys'.state == s.(ovs := sys'.state.ovs, ofPorts := sys'.state.ofPorts);
    hide Next;
    ReservedClaims(sys, sys', id, e);
    ReservedBooked(sys, sys', id, e);
    hide ClaimsOf, Booked;
    CoveredWith(sys, sys', base, e, []);
  }

  lemma ReservedBooked(sys: Sys, sys': Sys, id: Id, e: Id)
    requires Booked(sys) && e !in sys.docker.eps && id in sys.docker.nets && sys.docker.nets[id].created
    requires sys'.docker == sys.docker.(eps := sys.docker.eps[e := Endpoint(id, false)])
    requires sys'.state == sys.state.(ovs := sys'.state.ovs, ofPorts := sys'.state.ofPorts)
    requires forall x :: x in sys'.state.ofPorts && x != e ==> x in sys.state.ofPorts && sys'.state.ofPorts[x] == sys.state.ofPorts[x]
    requires e in sys'.state.ofPorts ==> sys'.state.ofPorts[e].joined.None?
    ensures Booked(sys')
  {
    hide A.SameNetwork;
  }

  lemma ReservedClaims(sys: Sys, sys': Sys, id: Id, e: Id)
    requires e !in sys.docker.eps && e !in sys.state.ofPorts
    requires sys'.docker == sys.docker.(eps := sys.docker.eps[e := Endpoint(id, false)])
    requires sys'.state == sys.state.(ovs := sys'.state.ovs, ofPorts := sys'.state.ofPorts)
    requires || sys'.state.ofPorts == sys.state.ofPorts
             || (e in sys'.state.ofPorts && sys'.state.ofPorts == sys.state.ofPorts[e := sys'.state.ofPorts[e]] && sys'.state.ofPorts[e].joined.None?)
    ensures e !in ClaimsOf(sys).eps && ClaimsOf(sys') == ClaimsOf(sys).(eps := ClaimsOf(sys).eps[e := []])
  {
    hide JoinRules;
    var c, c' := ClaimsOf(sys), ClaimsOf(sys');
    assert EndpointRules(sys', e) == [];
    forall x | x in sys.docker.eps ensures EndpointRules(sys', x) == EndpointRules(sys, x) {
      SameRules(sys, sys', x);
    }
    hide EndpointRules;
    assert c'.eps == c.eps[e := []];
  }

  lemma JoinCovered(sys: Sys, id: Id, e: Id, j: Joined, luck: Luck, base: multiset<Rule>)
    requires Covered(sys, base) && Booked(sys) && Legal(sys, JoinContainer(id, e, j))
    ensures Covered(Next(sys, JoinContainer(id, e, j), luck), base) && Booked(Next(sys, JoinContainer(id, e, j), luck))
  {
    hide Exec, JoinScript, JoinRules, Covered, Perform, JoinLeaves, Adds, Dels;
    var s, sys' := sys.state, Next(sys, JoinContainer(id, e, j), luck);
    var r := Exec(s, JoinScript(s, id, e, j), luck);
    Faults.JoinOutcomes(s, id, e, j, luck);
    ExecRules(s, JoinScript(s, id, e, j), luck);
    JoinEdits(s, id, e, j);
    JoinedRecords(s, r.state, id, e, j, r.completed);
    assert sys' == Sys(sys.docker.(eps := sys.docker.eps[e := Endpoint(id, true)]), r.state);
    hide Next;
    JoinedClaims(sys, sys', id, e, j, r.completed);
    JoinedBooked(sys, sys', id, e, j, r.completed);
    hide ClaimsOf, Booked;
    CoveredWith(sys, sys', base, e, if r.completed then JoinRules(s.networks[id].bridge, j) else []);
  }

  lemma JoinedBooked(sys: Sys, sys': Sys, id: Id, e: Id, j: Joined, completed: bool)
    requires Booked(sys) && e in sys.docker.eps && sys.docker.eps[e] == Endpoint(id, false)
    requires sys'.docker == sys.docker.(eps := sys.docker.eps[e := Endpoint(id, true)])
    requires JoinLeaves(sys.state, sys'.state, id, e, j, completed)
    ensures Booked(sys')
  {
  }

  /** What a join, completed or not, leaves of the records that decide claims. */
  ghost predicate JoinLeaves(s: State, s': State, id: Id, e: Id, j: Joined, completed: bool) {
    && s'.networks.Keys == s.networks.Keys
    && (forall n :: n in s.networks ==> A.SameNetwork(s'.networks[n], s.networks[n]))
    && (forall x :: x != e ==> (x in s'.ofPorts <==> x in s.ofPorts) && (x in s.ofPorts ==> s'.ofPorts[x] == s.ofPorts[x]))
    && (if completed then id in s.networks && e in s'.ofPorts && s'.ofPorts[e].joined == Some(j)
        else (e in s'.ofPorts <==> e in s.ofPorts) && (e in s.ofPorts ==> s'.ofPorts[e] == s.ofPorts[e]))
  }

  lemma JoinedRecords(s: State, s': State, id: Id, e: Id, j: Joined, completed: bool)
    requires var port := if e in s.ofPorts then s.ofPorts[e].port else 0;
             var s1 := s.(rules := s'.rules, faucet := s'.faucet);
             if completed then id in s.networks && s' == Perform(s1, RecordJoin(id, e, Reservation(port, Some(j)))) else s' == s1
    ensures JoinLeaves(s, s', id, e, j, completed)
  {
    hide Table, WithoutBridge, RemoveFirst;
  }

  lemma JoinedClaims(sys: Sys, sys': Sys, id: Id, e: Id, j: Joined, completed: bool)
    requires Booked(sys) && e in sys.docker.eps && sys.docker.eps[e] == Endpoint(id, false)
    requires sys'.docker == sys.docker.(eps := sys.docker.eps[e := Endpoint(id, true)])
    requires JoinLeaves(sys.state, sys'.state, id, e, j, completed)
    ensures var c, block := ClaimsOf(sys), if completed then JoinRules(sys.state.networks[id].bridge, j) else [];
            e in c.eps && c.eps[e] == [] && ClaimsOf(sys') == c.(eps := c.eps[e := block])
  {
    OwnRules(sys, sys', id, e, j, completed);
    hide EndpointRules, JoinRules, ClaimsOf, Booked;
    forall x | x in sys.docker.eps && x != e ensures EndpointRules(sys', x) == EndpointRules(sys, x) {
      OtherRulesSame(sys, sys', id, e, j, completed, x);
    }
    hide JoinLeaves;
    ClaimsWith(sys, sys', e, if completed then JoinRules(sys.state.networks[id].bridge, j) else []);
  }

  lemma OtherRulesSame(sys: Sys, sys': Sys, id: Id, e: Id, j: Joined, completed: bool, x: Id)
    requires x in sys.docker.eps && x != e && JoinLeaves(sys.state, sys'.state, id, e, j, completed)
    requires sys'.docker.eps == sys.docker.eps[e := Endpoint(id, true)]
    ensures EndpointRules(sys', x) == EndpointRules(sys, x)
  {
    hide EndpointRules;
    SameRules(sys, sys', x);
  }

  lemma ClaimsWith(sys: Sys, sys': Sys, e: Id, block: seq<Rule>)
    requires sys'.docker.nets == sys.docker.nets && sys'.docker.eps.Keys == sys.docker.eps.Keys + {e}
    requires EndpointRules(sys', e) == block
    requires forall x :: x in sys.docker.eps && x != e ==> EndpointRules(sys', x) == EndpointRules(sys, x)
    ensures ClaimsOf(sys') == ClaimsOf(sys).(eps := ClaimsOf(sys).eps[e := block])
    ensures e in sys.docker.eps ==> e in ClaimsOf(sys).eps && ClaimsOf(sys).eps[e] == EndpointRules(sys, e)
  {
    hide EndpointRules, NatRules;
    assert ClaimsOf(sys').eps == ClaimsOf(sys).eps[e := block];
  }

  lemma OwnRules(sys: Sys, sys': Sys, id: Id, e: Id, j: Joined, completed: bool)
    requires Booked(sys) && e in sys.docker.eps && sys.docker.eps[e] == Endpoint(id, false)
    requires e in sys'.docker.eps && sys'.docker.eps[e].network == id && JoinLeaves(sys.state, sys'.state, id, e, j, completed)
    ensures EndpointRules(sys, e) == []
    ensures EndpointRules(sys', e) == if completed then JoinRules(sys.state.networks[id].bridge, j) else []
  {
    hide JoinRules;
  }

  lemma LeaveCovered(sys: Sys, id: Id, e: Id, luck: Luck, base: multiset<Rule>)
    requires Covered(sys, base) && Booked(sys) && Legal(sys, LeaveContainer(id, e))
    ensures Covered(Next(sys, LeaveContainer(id, e), luck), base) && Booked(Next(sys, LeaveContainer(id, e), luck))
  {
    hide Exec, LeaveScript, JoinRules, Veth, Covered, Perform, LeaveLeaves, Adds, Dels;
    var s, sys' := sys.state, Next(sys, LeaveContainer(id, e), luck);
    Faults.LeaveOutcomes(s, id, e, luck);
    ExecRules(s, LeaveScript(s, id, e), luck);
    LeaveEdits(s, id, e);
    LeftRecords(s, sys'.state, id, e);
    assert sys'.docker == sys.docker.(eps := sys.docker.eps - {e});
    hide Next;
    LeftClaims(sys, sys', id, e);
    LeftBooked(sys, sys', e);
    hide ClaimsOf, Booked;
    CoveredWithout(sys, sys', base, e, Dels(LeaveScript(s, id, e)));
  }

  lemma LeftBooked(sys: Sys, sys': Sys, e: Id)
    requires Booked(sys) && sys'.docker == sys.docker.(eps := sys.docker.eps - {e}) && LeaveLeaves(sys.state, sys'.state, e)
    ensures Booked(sys')
  {
  }

  ghost predicate LeaveLeaves(s: State, s': State, e: Id) {
    && s'.networks.Keys == s.networks.Keys
    && (forall n :: n in s.networks ==> A.SameNetwork(s'.networks[n], s.networks[n]))
    && (forall x :: x != e ==> (x in s'.ofPorts <==> x in s.ofPorts) && (x in s.ofPorts ==> s'.ofPorts[x] == s.ofPorts[x]))
  }

  lemma LeftRecords(s: State, s': State, id: Id, e: Id)
    requires var s1 := s.(ovs := s.ovs - {Veth(e)}, rules := s'.rules, faucet := s'.faucet);
             s' == s || s' == s1 || (id in s.networks && s' == Perform(s1, ForgetEndpoint(id, e)))
    ensures LeaveLeaves(s, s', e)
  {
    hide Table, WithoutBridge, RemoveFirst, Veth;
  }

  lemma LeftClaims(sys: Sys, sys': Sys, id: Id, e: Id)
    requires e in sys.docker.eps && sys.docker.eps[e] == Endpoint(id, true)
    requires sys'.docker == sys.docker.(eps := sys.docker.eps - {e}) && LeaveLeaves(sys.state, sys'.state, e)
    ensures var c, s := ClaimsOf(sys), sys.state;
            && e in c.eps && ClaimsOf(sys') == c.(eps := c.eps - {e})
            && c.eps[e] == (if id in s.networks && e in s.ofPorts && s.ofPorts[e].joined.Some?
                            then JoinRules(s.networks[id].bridge, s.ofPorts[e].joined.value) else [])
  {
    hide JoinRules;
    var c, c' := ClaimsOf(sys), ClaimsOf(sys');
    forall x | x in sys'.docker.eps ensures EndpointRules(sys', x) == EndpointRules(sys, x) {
      SameRules(sys, sys', x);
    }
    assert c.eps[e] == EndpointRules(sys, e);
    assert c'.eps == c.eps - {e} by { hide EndpointRules; }
  }

  // -------------------------------------------------------------------------------------
  // Networks

  lemma InitCovered(sys: Sys, id: Id, net: Network, lb: nat, attached: map<string, nat>, luck: Luck, base: multiset<Rule>)
    requires Covered(sys, base) && Booked(sys) && Legal(sys, InitBridge(id, net, lb, attached))
    ensures var sys' := Next(sys, InitBridge(id, net, lb, attached), luck); Covered(sys', base) && Booked(sys')
  {
    hide AttachedOk, Covered, Next;
    var s, sys' := sys.state, Next(sys, InitBridge(id, net, lb, attached), luck);
    InitFacts(sys, id, net, lb, attached, luck);
    assert multiset([MasqueradeOut(net.cidr)] + s.rules) == multiset{MasqueradeOut(net.cidr)} + multiset(s.rules);
    InitBooked(sys, sys', id, net, lb, luck);
    hide Booked;
    InitClaimed(sys, sys', id, net, lb, luck);
    hide ClaimsOf;
    CoveredNat(sys, sys', base, id, MasqueradeOut(net.cidr), luck.NoFault? && net.mode == Nat);
  }

  lemma InitFacts(sys: Sys, id: Id, net: Network, lb: nat, attached: map<string, nat>, luck: Luck)
    ensures var s, sys' := sys.state, Next(sys, InitBridge(id, net, lb, attached), luck);
            && sys'.state == s.(bridges := sys'.state.bridges, ovs := sys'.state.ovs, rules := sys'.state.rules)
            && sys'.docker == (if luck.NoFault? then sys.docker.(nets := sys.docker.nets[id := Requested(net, lb, false)]) else sys.docker)
            && (sys'.state.rules == s.rules || sys'.state.rules == [MasqueradeOut(net.cidr)] + s.rules)
            && (luck.NoFault? && net.mode == Nat ==> sys'.state.rules == [MasqueradeOut(net.cidr)] + s.rules)
  {
    hide WithoutBridge;
  }

  lemma InitBooked(sys: Sys, sys': Sys, id: Id, net: Network, lb: nat, luck: Luck)
    requires Booked(sys) && id !in sys.docker.nets && id !in sys.state.networks
    requires sys'.state == sys.state.(bridges := sys'.state.bridges, ovs := sys'.state.ovs, rules := sys'.state.rules)
    requires sys'.docker == if luck.NoFault? then sys.docker.(nets := sys.docker.nets[id := Requested(net, lb, false)]) else sys.docker
    ensures Booked(sys')
  {
  }

  lemma InitClaimed(sys: Sys, sys': Sys, id: Id, net: Network, lb: nat, luck: Luck)
    requires id !in sys.docker.nets
    requires sys'.state == sys.state.(bridges := sys'.state.bridges, ovs := sys'.state.ovs, rules := sys'.state.rules)
    requires sys'.docker == if luck.NoFault? then sys.docker.(nets := sys.docker.nets[id := Requested(net, lb, false)]) else sys.docker
    ensures id !in ClaimsOf(sys).nats
    ensures ClaimsOf(sys') == if luck.NoFault? && net.mode == Nat
                              then ClaimsOf(sys).(nats := ClaimsOf(sys).nats[id := MasqueradeOut(net.cidr)]) else ClaimsOf(sys)
  {
    forall e | e in sys.docker.eps ensures EndpointRules(sys', e) == EndpointRules(sys, e) {
      SameRules(sys, sys', e);
    }
    SameEndpointClaims(sys, sys');
    NatRulesWith(sys.docker.nets, id, Requested(net, lb, false));
    hide EndpointRules, NatRules;
  }

  lemma CoveredNat(sys: Sys, sys': Sys, base: multiset<Rule>, id: Id, rule: Rule, added: bool)
    requires Covered(sys, base) && id !in ClaimsOf(sys).nats
    requires ClaimsOf(sys') == if added then ClaimsOf(sys).(nats := ClaimsOf(sys).nats[id := rule]) else ClaimsOf(sys)
    requires multiset(sys.state.rules) + (if added then multiset{rule} else multiset{}) <= multiset(sys'.state.rules)
    ensures Covered(sys', base)
  {
    hide ClaimsOf, Owed;
    forall r ensures multiset(sys'.state.rules)[r] >= base[r] + Owed(ClaimsOf(sys'), r) {
      AddNatClaim(ClaimsOf(sys), id, rule, r);
      assert (multiset(sys.state.rules) + (if added then multiset{rule} else multiset{}))[r] <= multiset(sys'.state.rules)[r];
    }
  }

  lemma CreateCovered(sys: Sys, id: Id, physical: seq<string>, copro: seq<string>, luck: Luck, base: multiset<Rule>)
    requires Covered(sys, base) && Booked(sys) && Legal(sys, CreateNetwork(id, physical, copro))
    ensures var sys' := Next(sys, CreateNetwork(id, physical, copro), luck); Covered(sys', base) && Booked(sys')
  {
    hide Exec, CreateScript, Lists;
    var s, sys' := sys.state, Next(sys, CreateNetwork(id, physical, copro), luck);
    var net, lb := sys.docker.nets[id].network, sys.docker.nets[id].lbPort;
    N.CreateResult(s, id, net, lb, physical, copro, luck);
    ExecRules(s, CreateScript(s, id, net, lb, physical, copro), luck);
    CreateEdits(s, id, net, lb, physical, copro);
    CreatedRecords(s, sys'.state, id, net, lb, luck);
    assert sys'.docker == sys.docker.(nets := sys.docker.nets[id := sys.docker.nets[id].(created := true)]);
    hide Next, Perform, N.Filled, Dels, Adds;
    CreatedClaims(sys, sys', id, net);
    StillCovered(sys, sys', base);
  }

  ghost predicate CreateLeaves(s: State, s': State, id: Id, net: Network) {
    && s'.ofPorts == s.ofPorts
    && (forall n :: n != id ==> (n in s'.networks <==> n in s.networks) && (n in s.networks ==> s'.networks[n] == s.networks[n]))
    && (id in s'.networks && id !in s.networks ==> A.SameNetwork(s'.networks[id], net))
    && (id in s.networks ==> id in s'.networks)
  }

  lemma CreatedRecords(s: State, s': State, id: Id, net: Network, lb: nat, luck: Luck)
    requires if luck == FaultAfter(0) then s' == s else N.Filled(Perform(s, RecordNetwork(id, net, lb)), s', id, net.name)
    ensures CreateLeaves(s, s', id, net)
  {
    assert Perform(s, RecordNetwork(id, net, lb)) == s.(mirrors := s.mirrors[id := lb], networks := s.networks[id := net]);
    hide Perform, Table, WithoutBridge, RemoveFirst;
  }

  lemma CreatedClaims(sys: Sys, sys': Sys, id: Id, net: Network)
    requires Booked(sys) && id in sys.docker.nets && !sys.docker.nets[id].created && sys.docker.nets[id].network == net
    requires sys'.docker == sys.docker.(nets := sys.docker.nets[id := sys.docker.nets[id].(created := true)])
    requires CreateLeaves(sys.state, sys'.state, id, net)
    ensures ClaimsOf(sys') == ClaimsOf(sys) && Booked(sys')
  {
    hide JoinRules, EndpointRules, A.SameNetwork;
    CreatedBooked(sys, sys', id, net);
    forall e | e in sys.docker.eps ensures EndpointRules(sys', e) == EndpointRules(sys, e) {
      assert sys.docker.eps[e].network != id;
      SameRules(sys, sys', e);
    }
    hide Booked, CreateLeaves;
    SameNatRules(sys.docker.nets, id);
    hide NatRules;
    SameEndpointClaims(sys, sys');
  }

  lemma SameNatRules(nets: map<Id, Requested>, id: Id)
    requires id in nets
    ensures NatRules(nets[id := nets[id].(created := true)]) == NatRules(nets)
  {
  }

  lemma CreatedBooked(sys: Sys, sys': Sys, id: Id, net: Network)
    requires Booked(sys) && id in sys.docker.nets && !sys.docker.nets[id].created && sys.docker.nets[id].network == net
    requires sys'.docker == sys.docker.(nets := sys.docker.nets[id := sys.docker.nets[id].(created := true)])
    requires CreateLeaves(sys.state, sys'.state, id, net)
    ensures Booked(sys')
  {
    hide A.SameNetwork;
  }

  lemma DeleteCovered(sys: Sys, id: Id, luck: Luck, base: multiset<Rule>)
    requires Covered(sys, base) && Booked(sys) && Legal(sys, DeleteNetwork(id))
    ensures Covered(Next(sys, DeleteNetwork(id), luck), base) && Booked(Next(sys, DeleteNetwork(id), luck))
  {
    hide Exec, DeleteScript;
    var s, sys' := sys.state, Next(sys, DeleteNetwork(id), luck);
    FaultyRuns.DeleteOutcomes(s, id, luck);
    ExecRules(s, DeleteScript(s, id), luck);
    DeleteEdits(s, id);
    DeletedRecords(s, sys'.state, id);
    assert sys'.docker == sys.docker.(nets := sys.docker.nets - {id});
    hide Next, Perform;
    DeletedClaims(sys, sys', id);
    var c, net := ClaimsOf(sys), sys.docker.nets[id].network;
    var gone := if net.mode == Nat then multiset{MasqueradeOut(net.cidr)} else multiset{};
    assert Dels(DeleteScript(s, id)) <= gone;
    hide ClaimsOf, Dels, Adds;
    forall x ensures multiset(sys'.state.rules)[x] >= base[x] + Owed(ClaimsOf(sys'), x) {
      if net.mode == Nat {
        DropNatClaim(c, id, x);
      }
      assert (multiset(s.rules) - Dels(DeleteScript(s, id)))[x] <= multiset(sys'.state.rules)[x];
      assert Dels(DeleteScript(s, id))[x] <= gone[x];
    }
  }

  ghost predicate DeleteLeaves(s: State, s': State, id: Id) {
    && s'.ofPorts == s.ofPorts
    && (forall n :: n in s'.networks ==> n in s.networks && s'.networks[n] == s.networks[n])
    && (forall n :: n in s.networks && n != id ==> n in s'.networks)
  }

  lemma DeletedRecords(s: State, s': State, id: Id)
    requires var s1 := s.(rules := s'.rules, faucet := s'.faucet);
             s' == s1 || (id in s.networks && s' == Perform(Perform(s1, DelBridge(s.networks[id].bridge)), ForgetNetwork(id)))
    ensures DeleteLeaves(s, s', id)
  {
    hide Table, WithoutBridge, RemoveFirst;
  }

  lemma DeletedClaims(sys: Sys, sys': Sys, id: Id)
    requires Booked(sys) && id in sys.docker.nets && forall e :: e in sys.docker.eps ==> sys.docker.eps[e].network != id
    requires sys'.docker == sys.docker.(nets := sys.docker.nets - {id}) && DeleteLeaves(sys.state, sys'.state, id)
    ensures var c, net := ClaimsOf(sys), sys.docker.nets[id].network;
            && (net.mode == Nat ==> id in c.nats && c.nats[id] == MasqueradeOut(net.cidr))
            && ClaimsOf(sys') == (if net.mode == Nat then c.(nats := c.nats - {id}) else c)
            && Booked(sys')
  {
    hide JoinRules;
    forall e | e in sys.docker.eps ensures EndpointRules(sys', e) == EndpointRules(sys, e) {
      SameRules(sys, sys', e);
    }
    assert Booked(sys');
    NatRulesWithout(sys.docker.nets, id);
    if sys.docker.nets[id].network.mode == Nat {
      NatRulesAt(sys.docker.nets, id);
    }
    hide EndpointRules, NatRules, Booked, DeleteLeaves;
    SameEndpointClaims(sys, sys');
  }

  // -------------------------------------------------------------------------------------
  // Whole runs

  lemma QuietCovered(sys: Sys, sys': Sys, base: multiset<Rule>)
    requires Covered(sys, base) && Booked(sys) && sys'.docker == sys.docker && sys'.state.rules == sys.state.rules
    requires sys'.state.ofPorts == sys.state.ofPorts && A.SameNames(sys.state, sys'.state)
    ensures Covered(sys', base) && Booked(sys')
  {
    hide JoinRules;
    forall e | e in sys.docker.eps ensures EndpointRules(sys', e) == EndpointRules(sys, e) {
      SameRules(sys, sys', e);
    }
    assert Booked(sys');
    hide EndpointRules, Booked;
    SameEndpointClaims(sys, sys');
    StillCovered(sys, sys', base);
  }

  lemma StepCovered(sys: Sys, op: Op, luck: Luck, base: multiset<Rule>)
    requires Covered(sys, base) && Booked(sys) && Legal(sys, op)
    ensures Covered(Next(sys, op, luck), base) && Booked(Next(sys, op, luck))
  {
    hide Covered, Booked, Legal, A.SameNetwork;
    match op
    case InitBridge(id, net, lb, attached) => InitCovered(sys, id, net, lb, attached, luck, base);
    case CreateNetwork(id, physical, copro) => CreateCovered(sys, id, physical, copro, luck, base);
    case DeleteNetwork(id) => DeleteCovered(sys, id, luck, base);
    case ReservePort(id, e) => ReserveCovered(sys, id, e, luck, base);
    case JoinContainer(id, e, j) => JoinCovered(sys, id, e, j, luck, base);
    case LeaveContainer(id, e) => LeaveCovered(sys, id, e, luck, base);
    case Reconcile(id, scrape) => ReconcileNames(sys.state, id, scrape); QuietCovered(sys, Next(sys, op, luck), base);
    case DhcpUpdate(id, e, hostIP) => N.DhcpShape(sys.state, id, e, hostIP); QuietCovered(sys, Next(sys, op, luck), base);
    case _ => SameNamesSame(sys.state); QuietCovered(sys, Next(sys, op, luck), base);
  }

  lemma ReconcileNames(s: State, id: Id, scrape: Option<map<nat, string>>)
    ensures var s' := ReconcileState(s, id, scrape); A.SameNames(s, s') && s'.rules == s.rules && s'.ofPorts == s.ofPorts
  {
    if id in s.networks {
      N.ReconcileShape(s, id, scrape);
      hide ReconcileState, Table;
    }
  }

  lemma SameNamesSame(s: State)
    ensures A.SameNames(s, s)
  {
  }

  lemma {:induction false} RunCovered(sys: Sys, events: seq<Event>, base: multiset<Rule>)
    requires Covered(sys, base) && Booked(sys) && LegalRun(sys, events)
    ensures Covered(Run(sys, events), base) && Booked(Run(sys, events))
    decreases |events|
  {
    hide Covered, Booked, Legal, Next;
    if events != [] {
      StepCovered(sys, events[0].op, events[0].luck, base);
      RunCovered(Next(sys, events[0].op, events[0].luck), events[1..], base);
    }
  }

  lemma InitiallyCovered(sys: Sys)
    requires Initial(sys)
    ensures Covered(sys, multiset(sys.state.rules)) && Booked(sys)
  {
    var c := ClaimsOf(sys);
    forall r ensures Owed(c, r) == 0 {
      assert EndpointClaims(c.eps, r) == {} && NatClaims(c.nats, r) == {};
    }
  }

  /** In every run, with a panic possible at any command: the rules are at least the host's own and
      what every live endpoint that completed its join, and every NAT network, calls for. */
  lemma CoverTheorem(sys: Sys, events: seq<Event>)
    requires Initial(sys) && LegalRun(sys, events)
    ensures Covered(Run(sys, events), multiset(sys.state.rules))
  {
    InitiallyCovered(sys);
    hide Covered, Booked;
    RunCovered(sys, events, multiset(sys.state.rules));
  }

  /** So a leave of a completed join finds every rule it deletes, and a deletion of a NAT network
      the network's own. */
  lemma RulesFoundUnderFaults(sys: Sys, events: seq<Event>, e: Id)
    requires Initial(sys) && LegalRun(sys, events)
    ensures var last := Run(sys, events);
            && (e in last.docker.eps && last.docker.eps[e].network in last.state.networks
                && e in last.state.ofPorts && last.state.ofPorts[e].joined.Some? ==>
                  A.HasJoinRules(last.state, last.docker.eps[e].network, e))
            && (forall n :: n in last.docker.nets ==> N.HasNatRule(last.state, n))
  {
    InitiallyCovered(sys);
    hide Covered, Booked;
    var base := multiset(sys.state.rules);
    RunCovered(sys, events, base);
    hide Run, LegalRun, Initial;
    var last := Run(sys, events);
    if e in last.docker.eps && last.docker.eps[e].network in last.state.networks && e in last.state.ofPorts && last.state.ofPorts[e].joined.Some? {
      JoinRulesFound(last, base, e);
    }
    forall n | n in last.docker.nets ensures N.HasNatRule(last.state, n) {
      NatRuleFound(last, base, n);
    }
  }

  lemma JoinRulesFound(sys: Sys, base: multiset<Rule>, e: Id)
    requires Covered(sys, base) && e in sys.docker.eps && sys.docker.eps[e].network in sys.state.networks
    requires e in sys.state.ofPorts && sys.state.ofPorts[e].joined.Some?
    ensures A.HasJoinRules(sys.state, sys.docker.eps[e].network, e)
  {
    hide JoinRules;
    var c, rules := ClaimsOf(sys), EndpointRules(sys, e);
    assert c.eps[e] == rules;
    hide ClaimsOf, Owed;
    forall r ensures multiset(rules)[r] <= multiset(sys.state.rules)[r] {
      DropEndpointClaims(c, e, r);
    }
    assert multiset(rules) <= multiset(sys.state.rules);
  }

  lemma NatRuleFound(sys: Sys, base: multiset<Rule>, n: Id)
    requires Covered(sys, base) && Booked(sys) && n in sys.docker.nets
    ensures N.HasNatRule(sys.state, n)
  {
    if n in sys.state.networks && sys.state.networks[n].mode == Nat {
      var c, r := ClaimsOf(sys), MasqueradeOut(sys.state.networks[n].cidr);
      assert n in c.nats && c.nats[n] == r;
      hide ClaimsOf, Owed;
      DropNatClaim(c, n, r);
      assert multiset(sys.state.rules)[r] >= 1;
    }
  }
}
