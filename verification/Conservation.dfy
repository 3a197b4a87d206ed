/**
 Conservation of iptables rules in fault-free runs: what the driver has added is, rule by
 rule, four rules per port mapping of each joined endpoint and one masquerading rule per
 NAT network, so every deletion finds what it deletes.
 */
module Conservation {
  import opened Types
  import opened Rules
  import opened World
  import opened Handlers
  import opened Agreement
  import opened NetworkAgreement

  /** Who is answerable for which rules. */
  datatype Claims = Claims(eps: map<Id, seq<Rule>>, nats: map<Id, Rule>)

  datatype Claim = MapClaim(endpoint: Id, index: nat) | NatClaim(network: Id)

  ghost function EndpointClaims(eps: map<Id, seq<Rule>>, r: Rule): set<Claim> {
    set e, i | e in eps && 0 <= i < |eps[e]| && eps[e][i] == r :: MapClaim(e, i)
  }

  ghost function NatClaims(nats: map<Id, Rule>, r: Rule): set<Claim> {
    set n | n in nats && nats[n] == r :: NatClaim(n)
  }

  /** The number of claims that call for a rule. */
  ghost function Owed(c: Claims, r: Rule): nat {
    |EndpointClaims(c.eps, r)| + |NatClaims(c.nats, r)|
  }

  // -------------------------------------------------------------------------------------
  // Counting

  ghost function Indices(e: Id, rules: seq<Rule>, r: Rule): set<Claim> {
    set i | 0 <= i < |rules| && rules[i] == r :: MapClaim(e, i)
  }

  lemma {:induction false} CountIndices(e: Id, rules: seq<Rule>, r: Rule)
    ensures |Indices(e, rules, r)| == multiset(rules)[r]
  {
    if rules == [] {
      assert Indices(e, rules, r) == {};
    } else {
      var n := |rules| - 1;
      CountIndices(e, rules[..n], r);
      assert rules == rules[..n] + [rules[n]];
      if rules[n] == r {
        assert Indices(e, rules, r) == Indices(e, rules[..n], r) + {MapClaim(e, n)};
      } else {
        assert Indices(e, rules, r) == Indices(e, rules[..n], r);
      }
    }
  }

  lemma EndpointClaimsWith(eps: map<Id, seq<Rule>>, e: Id, rules: seq<Rule>, r: Rule)
    requires e in eps ==> eps[e] == []
    ensures EndpointClaims(eps[e := rules], r) == EndpointClaims(eps, r) + Indices(e, rules, r)
    ensures EndpointClaims(eps, r) !! Indices(e, rules, r)
  {
    var eps' := eps[e := rules];
    forall claim ensures claim in EndpointClaims(eps', r) <==> claim in EndpointClaims(eps, r) || claim in Indices(e, rules, r) {
      if claim.MapClaim? {
        assert claim == MapClaim(claim.endpoint, claim.index);
      }
    }
  }

  lemma AddEndpointClaims(c: Claims, e: Id, rules: seq<Rule>, r: Rule)
    requires e in c.eps ==> c.eps[e] == []
    ensures Owed(c.(eps := c.eps[e := rules]), r) == Owed(c, r) + multiset(rules)[r]
  {
    CountIndices(e, rules, r);
    EndpointClaimsWith(c.eps, e, rules, r);
    hide NatClaims, EndpointClaims, Indices;
  }

  lemma DropEndpointClaims(c: Claims, e: Id, r: Rule)
    requires e in c.eps
    ensures Owed(c.(eps := c.eps - {e}), r) + multiset(c.eps[e])[r] == Owed(c, r)
  {
    hide NatClaims, EndpointClaims, Indices, Owed;
    var c' := c.(eps := c.eps - {e});
    assert c'.eps[e := c.eps[e]] == c.eps;
    assert c == c'.(eps := c'.eps[e := c.eps[e]]);
    AddEndpointClaims(c', e, c.eps[e], r);
  }

  lemma AddNatClaim(c: Claims, n: Id, rule: Rule, r: Rule)
    requires n !in c.nats
    ensures Owed(c.(nats := c.nats[n := rule]), r) == Owed(c, r) + multiset{rule}[r]
  {
    var nats' := c.nats[n := rule];
    if rule == r {
      assert NatClaims(nats', r) == NatClaims(c.nats, r) + {NatClaim(n)};
    } else {
      assert NatClaims(nats', r) == NatClaims(c.nats, r);
    }
  }

  lemma DropNatClaim(c: Claims, n: Id, r: Rule)
    requires n in c.nats
    ensures Owed(c.(nats := c.nats - {n}), r) + multiset{c.nats[n]}[r] == Owed(c, r)
  {
    var c' := c.(nats := c.nats - {n});
    assert c'.nats[n := c.nats[n]] == c.nats;
    assert c == c'.(nats := c'.nats[n := c.nats[n]]);
    AddNatClaim(c', n, c.nats[n], r);
  }

  // -------------------------------------------------------------------------------------
  // The claims of a system state

  ghost function EndpointRules(sys: Sys, e: Id): seq<Rule>
    requires e in sys.docker.eps
  {
    var s, n := sys.state, sys.docker.eps[e].network;
    if n in s.networks && e in s.ofPorts && s.ofPorts[e].joined.Some?
    then JoinRules(s.networks[n].bridge, s.ofPorts[e].joined.value) else []
  }

  ghost function ClaimsOf(sys: Sys): Claims {
    Claims(map e | e in sys.docker.eps :: EndpointRules(sys, e), NatRules(sys.docker.nets))
  }

  ghost function NatRules(nets: map<Id, Requested>): map<Id, Rule> {
    map n | n in nets && nets[n].network.mode == Nat :: MasqueradeOut(nets[n].network.cidr)
  }

  lemma NatRulesWithout(nets: map<Id, Requested>, id: Id)
    requires id in nets
    ensures NatRules(nets - {id}) == if nets[id].network.mode == Nat then NatRules(nets) - {id} else NatRules(nets)
  {
  }

  /** The host's own rules, plus exactly what is owed. */
  ghost predicate Conserved(sys: Sys, base: multiset<Rule>) {
    forall r :: multiset(sys.state.rules)[r] == base[r] + Owed(ClaimsOf(sys), r)
  }

  lemma SameClaims(sys: Sys, sys': Sys, base: multiset<Rule>)
    requires Conserved(sys, base) && ClaimsOf(sys') == ClaimsOf(sys) && sys'.state.rules == sys.state.rules
    ensures Conserved(sys', base)
  {
  }

  /** Leave finds every rule it is about to delete. */
  lemma JoinRulesPresent(sys: Sys, id: Id, e: Id, base: multiset<Rule>)
    requires Conserved(sys, base) && e in sys.docker.eps && sys.docker.eps[e] == Endpoint(id, true) && EndpointOk(sys, e)
    ensures HasJoinRules(sys.state, id, e)
  {
    var c := ClaimsOf(sys);
    var rules := EndpointRules(sys, e);
    assert c.eps[e] == rules;
    forall r ensures multiset(rules)[r] <= multiset(sys.state.rules)[r] {
      DropEndpointClaims(c, e, r);
    }
    assert multiset(rules) <= multiset(sys.state.rules);
  }

  lemma NatRulePresent(sys: Sys, id: Id, base: multiset<Rule>)
    requires Conserved(sys, base) && NetworksOk(sys)
    ensures HasNatRule(sys.state, id)
  {
    var s := sys.state;
    if id in s.networks && s.networks[id].mode == Nat {
      var r := MasqueradeOut(s.networks[id].cidr);
      var c := ClaimsOf(sys);
      assert id in c.nats && c.nats[id] == r;
      DropNatClaim(c, id, r);
      assert multiset(s.rules)[r] >= 1;
    }
  }

  lemma ReserveConserves(sys: Sys, id: Id, e: Id, base: multiset<Rule>)
    requires Conserved(sys, base) && OvsOk(sys.state) && NetworksOk(sys) && OwnersOk(sys) && Legal(sys, ReservePort(id, e))
    ensures Conserved(Next(sys, ReservePort(id, e), NoFault), base)
  {
    hide Owed, ClaimsOf, OwnersOk, OvsOk, NetworksOk, Exec, ReserveScript, Veth;
    var sys' := Next(sys, ReservePort(id, e), NoFault);
    var c := ClaimsOf(sys);
    ReserveResult(sys, id, e);
    ReserveClaims(sys, sys', id, e);
    forall r ensures Owed(ClaimsOf(sys'), r) == Owed(c, r) {
      AddEndpointClaims(c, e, [], r);
    }
  }

  lemma ReserveClaims(sys: Sys, sys': Sys, id: Id, e: Id)
    requires e !in sys.docker.eps
    requires sys'.docker == sys.docker.(eps := sys.docker.eps[e := Endpoint(id, false)])
    requires id in sys.state.networks
    requires sys'.state == sys.state.(ovs := sys'.state.ovs, ofPorts := sys'.state.ofPorts)
    requires e in sys'.state.ofPorts && sys'.state.ofPorts[e].joined.None?
    requires sys'.state.ofPorts - {e} == sys.state.ofPorts - {e}
    ensures ClaimsOf(sys') == ClaimsOf(sys).(eps := ClaimsOf(sys).eps[e := []])
    ensures e !in ClaimsOf(sys).eps
  {
    hide JoinRules;
    var c, c' := ClaimsOf(sys), ClaimsOf(sys');
    forall e' | e' in c.eps ensures c'.eps[e'] == c.eps[e'] {
      assert e' in sys.state.ofPorts <==> e' in sys.state.ofPorts - {e};
      assert e' in sys'.state.ofPorts <==> e' in sys'.state.ofPorts - {e};
      assert EndpointRules(sys', e') == EndpointRules(sys, e');
    }
  }

  lemma JoinConserves(sys: Sys, sys': Sys, id: Id, e: Id, j: Joined, base: multiset<Rule>)
    requires Conserved(sys, base) && e in sys.docker.eps && sys.docker.eps[e] == Endpoint(id, false) && EndpointOk(sys, e)
    requires JoinsTo(sys, sys', id, e, j)
    ensures Conserved(sys', base)
  {
    var rules := JoinRules(sys.state.networks[id].bridge, j);
    JoinClaims(sys, sys', id, e, j);
    var c, c' := ClaimsOf(sys), ClaimsOf(sys');
    forall r ensures multiset(sys'.state.rules)[r] == base[r] + Owed(c', r) {
      AddEndpointClaims(c, e, rules, r);
    }
  }

  lemma JoinClaims(sys: Sys, sys': Sys, id: Id, e: Id, j: Joined)
    requires e in sys.docker.eps && sys.docker.eps[e] == Endpoint(id, false) && EndpointOk(sys, e)
    requires JoinsTo(sys, sys', id, e, j)
    ensures var c := ClaimsOf(sys);
            && c.eps[e] == []
            && ClaimsOf(sys') == c.(eps := c.eps[e := JoinRules(sys.state.networks[id].bridge, j)])
  {
    hide JoinRules, Veth, Table, NatRules;
    var c, c' := ClaimsOf(sys), ClaimsOf(sys');
    forall e' | e' in c.eps && e' != e ensures EndpointRules(sys', e') == EndpointRules(sys, e') {
    }
    assert EndpointRules(sys, e) == [] && EndpointRules(sys', e) == JoinRules(sys.state.networks[id].bridge, j);
    hide EndpointRules, JoinsTo, JoinedState;
  }

  lemma LeaveConserves(sys: Sys, sys': Sys, id: Id, e: Id, base: multiset<Rule>)
    requires Conserved(sys, base) && e in sys.docker.eps && sys.docker.eps[e] == Endpoint(id, true) && EndpointOk(sys, e)
    requires LeavesTo(sys, sys', id, e, sys.state.ofPorts[e].joined.value)
    ensures Conserved(sys', base)
  {
    LeaveClaims(sys, sys', id, e);
    JoinRulesPresent(sys, id, e, base);
    var c, c' := ClaimsOf(sys), ClaimsOf(sys');
    RemoveEachCount(sys.state.rules, c.eps[e]);
    assert sys'.state.rules == RemoveEach(sys.state.rules, c.eps[e]);
    hide RemoveEach, JoinRules, ClaimsOf, Owed, Veth, EndpointOk, LeavesTo;
    forall r ensures multiset(sys'.state.rules)[r] == base[r] + Owed(c', r) {
      DropEndpointClaims(c, e, r);
    }
  }

  lemma LeaveClaims(sys: Sys, sys': Sys, id: Id, e: Id)
    requires e in sys.docker.eps && sys.docker.eps[e] == Endpoint(id, true) && EndpointOk(sys, e)
    requires LeavesTo(sys, sys', id, e, sys.state.ofPorts[e].joined.value)
    ensures var c := ClaimsOf(sys);
            && c.eps[e] == JoinRules(sys.state.networks[id].bridge, sys.state.ofPorts[e].joined.value)
            && ClaimsOf(sys') == c.(eps := c.eps - {e})
  {
    hide JoinRules, Veth;
    var c, c' := ClaimsOf(sys), ClaimsOf(sys');
    forall e' | e' in c.eps && e' != e ensures e' in c'.eps && c'.eps[e'] == c.eps[e'] {
      assert EndpointRules(sys', e') == EndpointRules(sys, e');
    }
  }

  /** Operations after which every network keeps its bridge and every endpoint its join. */
  ghost predicate SameBridges(s: State, s': State) {
    && s'.ofPorts == s.ofPorts
    && (forall n :: n in s.networks ==> n in s'.networks && s'.networks[n].bridge == s.networks[n].bridge)
  }

  lemma EndpointClaimsFrame(sys: Sys, sys': Sys)
    requires EndpointsOk(sys) && sys'.docker.eps == sys.docker.eps && SameBridges(sys.state, sys'.state)
    ensures ClaimsOf(sys').eps == ClaimsOf(sys).eps
  {
    hide JoinRules, Veth;
    forall e | e in sys.docker.eps ensures EndpointRules(sys', e) == EndpointRules(sys, e) {
      assert EndpointOk(sys, e);
    }
  }

  lemma InitConserves(sys: Sys, id: Id, net: Network, lb: nat, attached: map<string, nat>, base: multiset<Rule>)
    requires Conserved(sys, base) && EndpointsOk(sys) && Legal(sys, InitBridge(id, net, lb, attached))
    ensures Conserved(Next(sys, InitBridge(id, net, lb, attached), NoFault), base)
  {
    hide AttachedOk, EndpointsOk, Owed, ClaimsOf;
    var sys' := Next(sys, InitBridge(id, net, lb, attached), NoFault);
    var c := ClaimsOf(sys);
    InitClaims(sys, id, net, lb, attached);
    if net.mode == Nat {
      forall r ensures multiset(sys'.state.rules)[r] == base[r] + Owed(ClaimsOf(sys'), r) {
        AddNatClaim(c, id, MasqueradeOut(net.cidr), r);
      }
    }
  }

  lemma NatRulesWith(nets: map<Id, Requested>, id: Id, r: Requested)
    requires id !in nets
    ensures id !in NatRules(nets)
    ensures NatRules(nets[id := r]) ==
            if r.network.mode == Nat then NatRules(nets)[id := MasqueradeOut(r.network.cidr)] else NatRules(nets)
  {
  }

  lemma InitClaims(sys: Sys, id: Id, net: Network, lb: nat, attached: map<string, nat>)
    requires EndpointsOk(sys) && Legal(sys, InitBridge(id, net, lb, attached))
    ensures id !in ClaimsOf(sys).nats
    ensures var c := ClaimsOf(sys);
            ClaimsOf(Next(sys, InitBridge(id, net, lb, attached), NoFault)) ==
            if net.mode == Nat then c.(nats := c.nats[id := MasqueradeOut(net.cidr)]) else c
  {
    hide AttachedOk, EndpointsOk, EndpointRules, WithoutBridge;
    var sys' := Next(sys, InitBridge(id, net, lb, attached), NoFault);
    InitShape(sys, id, net, lb, attached);
    hide Next;
    EndpointClaimsFrame(sys, sys');
    NatRulesWith(sys.docker.nets, id, Requested(net, lb, false));
    hide NatRules;
  }

  lemma CreateConserves(sys: Sys, sys': Sys, id: Id, base: multiset<Rule>)
    requires Conserved(sys, base) && NetworksOk(sys) && EndpointsOk(sys) && Creates(sys, sys', id)
    ensures Conserved(sys', base)
  {
    hide EndpointsOk, NetworksOk, Filled, Perform, Owed, EndpointRules, SameBridges;
    CreateBridges(sys, sys', id);
    EndpointClaimsFrame(sys, sys');
    assert ClaimsOf(sys').nats == ClaimsOf(sys).nats;
    hide ClaimsOf;
    SameClaims(sys, sys', base);
  }

  lemma CreateBridges(sys: Sys, sys': Sys, id: Id)
    requires NetworksOk(sys) && Creates(sys, sys', id)
    ensures SameBridges(sys.state, sys'.state) && sys'.state.rules == sys.state.rules
  {
    CreateSameRest(sys, sys', id);
    CreateShape(sys, sys', id);
    hide Filled, Perform, Table, NetsApart;
  }

  lemma DeleteConserves(sys: Sys, sys': Sys, id: Id, base: multiset<Rule>)
    requires Conserved(sys, base) && NetworksOk(sys) && EndpointsOk(sys) && Deletes(sys, sys', id)
    ensures Conserved(sys', base)
  {
    NatRulePresent(sys, id, base);
    hide Owed, ClaimsOf, EndpointsOk, NetworksOk;
    var s, c := sys.state, ClaimsOf(sys);
    DeleteClaims(sys, sys', id);
    if s.networks[id].mode == Nat {
      RemoveFirstCount(s.rules, MasqueradeOut(s.networks[id].cidr));
      hide RemoveFirst;
      forall r ensures multiset(sys'.state.rules)[r] == base[r] + Owed(ClaimsOf(sys'), r) {
        DropNatClaim(c, id, r);
      }
    }
  }

  lemma DeleteClaims(sys: Sys, sys': Sys, id: Id)
    requires NetworksOk(sys) && EndpointsOk(sys) && Deletes(sys, sys', id)
    ensures var c, net := ClaimsOf(sys), sys.state.networks[id];
            && (net.mode == Nat ==> id in c.nats && c.nats[id] == MasqueradeOut(net.cidr))
            && ClaimsOf(sys') == if net.mode == Nat then c.(nats := c.nats - {id}) else c
  {
    hide EndpointsOk, EndpointRules, DeletedState, NatRules;
    DeleteEndpointClaims(sys, sys', id);
    assert SameNetwork(sys.state.networks[id], sys.docker.nets[id].network);
    hide NetworksOk;
    NatRulesWithout(sys.docker.nets, id);
    if sys.state.networks[id].mode == Nat {
      NatRulesAt(sys.docker.nets, id);
    }
  }

  lemma NatRulesAt(nets: map<Id, Requested>, id: Id)
    requires id in nets && nets[id].network.mode == Nat
    ensures id in NatRules(nets) && NatRules(nets)[id] == MasqueradeOut(nets[id].network.cidr)
  {
  }

  lemma DeleteEndpointClaims(sys: Sys, sys': Sys, id: Id)
    requires EndpointsOk(sys) && Deletes(sys, sys', id)
    ensures ClaimsOf(sys').eps == ClaimsOf(sys).eps
  {
    hide JoinRules, Veth;
    forall e | e in sys.docker.eps ensures EndpointRules(sys', e) == EndpointRules(sys, e) {
    }
  }
}
