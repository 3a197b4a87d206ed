/**
 The order of the rules.  The driver appends a join's rules in one block and a leave deletes
 the first equal rule for each; networks put their masquerading rule in front.  As long as no
 join finds a rule of its own in place, the rules are the networks' own, the host's, and then
 the blocks of the joined endpoints, longest joined first.
 */
module RuleOrder {
  import opened Types
  import opened Rules
  import opened World
  import opened Handlers
  import opened Agreement
  import opened NetworkAgreement
  import opened Conservation
  import F = FaultFree
  import L = Leftovers

  // -------------------------------------------------------------------------------------
  // Deleting blocks

  /** Deleting rules that do not occur before their own block takes out exactly that block. */
  lemma {:induction false} RemoveBlock(before: seq<Rule>, block: seq<Rule>, after: seq<Rule>)
    requires forall r :: r in block ==> r !in before
    ensures RemoveEach(before + block + after, block) == before + after
    decreases |block|
  {
    if block == [] {
      assert before + block + after == before + after;
    } else {
      assert block[0] in block;
      assert before + block + after == before + ([block[0]] + (block[1..] + after));
      RemoveAfter(before, block[0], block[1..] + after);
      assert before + (block[1..] + after) == before + block[1..] + after;
      RemoveBlock(before, block[1..], after);
    }
  }

  lemma {:induction false} RemoveAfter(before: seq<Rule>, r: Rule, after: seq<Rule>)
    requires r !in before
    ensures RemoveFirst(before + ([r] + after), r) == before + after
  {
    if before == [] {
      assert before + ([r] + after) == [r] + after && before + after == after;
    } else {
      assert (before + ([r] + after))[1..] == before[1..] + ([r] + after);
      RemoveAfter(before[1..], r, after);
      assert [before[0]] + (before[1..] + after) == before + after;
    }
  }

  // -------------------------------------------------------------------------------------
  // The order of joins

  function Without(order: seq<Id>, e: Id): seq<Id> {
    if order == [] then []
    else if order[0] == e then order[1..]
    else [order[0]] + Without(order[1..], e)
  }

  /** Endpoints in the order in which they joined, those that left taken out. */
  function JoinOrder(order: seq<Id>, events: seq<Event>): seq<Id>
    decreases |events|
  {
    if events == [] then order else JoinOrder(OrderNext(order, events[0].op), events[1..])
  }

  function OrderNext(order: seq<Id>, op: Op): seq<Id> {
    match op
    case JoinContainer(_, e, _) => order + [e]
    case LeaveContainer(_, e) => Without(order, e)
    case _ => order
  }

  /** The blocks of rules of these endpoints, one after the other. */
  ghost function Blocks(eps: map<Id, seq<Rule>>, order: seq<Id>): seq<Rule> {
    if order == [] then [] else (if order[0] in eps then eps[order[0]] else []) + Blocks(eps, order[1..])
  }

  ghost predicate Distinct(order: seq<Id>) {
    forall i, k :: 0 <= i < k < |order| ==> order[i] != order[k]
  }

  /** No rule of one endpoint is also the host's or another endpoint's. */
  ghost predicate Separate(eps: map<Id, seq<Rule>>, base: seq<Rule>) {
    && (forall e, r :: e in eps && r in eps[e] ==> r !in base)
    && (forall e, x, r :: e in eps && x in eps && e != x && r in eps[e] ==> r !in eps[x])
  }

  /** The host's rules and then the blocks of the endpoints in this order, no rule having two owners. */
  ghost predicate Ordered(eps: map<Id, seq<Rule>>, rules: seq<Rule>, base: seq<Rule>, order: seq<Id>) {
    && rules == base + Blocks(eps, order)
    && Distinct(order)
    && (forall e :: e in order ==> e in eps)
    && (forall e :: e in eps && eps[e] != [] ==> e in order)
    && Separate(eps, base)
  }

  lemma {:induction false} BlocksSnoc(eps: map<Id, seq<Rule>>, order: seq<Id>, e: Id)
    ensures Blocks(eps, order + [e]) == Blocks(eps, order) + if e in eps then eps[e] else []
  {
    if order == [] {
      assert order + [e] == [e] && [e][1..] == [];
    } else {
      assert (order + [e])[1..] == order[1..] + [e];
      BlocksSnoc(eps, order[1..], e);
    }
  }

  lemma {:induction false} BlocksFrame(eps: map<Id, seq<Rule>>, eps': map<Id, seq<Rule>>, order: seq<Id>)
    requires forall e :: e in order ==> e in eps && e in eps' && eps'[e] == eps[e]
    ensures Blocks(eps', order) == Blocks(eps, order)
  {
    if order != [] {
      assert order[0] in order;
      BlocksFrame(eps, eps', order[1..]);
    }
  }

  lemma {:induction false} BlocksMember(eps: map<Id, seq<Rule>>, order: seq<Id>, r: Rule)
    ensures r in Blocks(eps, order) <==> exists e :: e in order && e in eps && r in eps[e]
  {
    if order != [] {
      assert order == [order[0]] + order[1..];
      BlocksMember(eps, order[1..], r);
    }
  }

  /** Taking out the endpoint at place k. */
  lemma {:induction false} WithoutAt(order: seq<Id>, k: nat)
    requires Distinct(order) && k < |order|
    ensures Without(order, order[k]) == order[..k] + order[k + 1..]
  {
    if k == 0 {
      assert order[..0] + order[1..] == order[1..];
    } else {
      assert order[0] != order[k] && order[1..][k - 1] == order[k];
      WithoutAt(order[1..], k - 1);
      assert order[..k] == [order[0]] + order[1..][..k - 1];
      assert order[k + 1..] == order[1..][k..];
    }
  }

  lemma {:induction false} BlocksConcat(eps: map<Id, seq<Rule>>, a: seq<Id>, b: seq<Id>)
    ensures Blocks(eps, a + b) == Blocks(eps, a) + Blocks(eps, b)
  {
    if a == [] {
      assert a + b == b;
    } else {
      assert (a + b)[1..] == a[1..] + b;
      BlocksConcat(eps, a[1..], b);
    }
  }

  lemma BlocksAround(eps: map<Id, seq<Rule>>, order: seq<Id>, k: nat)
    requires k < |order| && order[k] in eps
    ensures Blocks(eps, order) == Blocks(eps, order[..k]) + eps[order[k]] + Blocks(eps, order[k + 1..])
  {
    var e := order[k];
    assert order == order[..k] + [e] + order[k + 1..];
    BlocksConcat(eps, order[..k] + [e], order[k + 1..]);
    BlocksSnoc(eps, order[..k], e);
  }

  lemma LeaveBlocks(eps: map<Id, seq<Rule>>, order: seq<Id>, k: nat)
    requires Distinct(order) && k < |order| && forall e :: e in order ==> e in eps
    ensures Blocks(eps - {order[k]}, order[..k] + order[k + 1..]) == Blocks(eps, order[..k]) + Blocks(eps, order[k + 1..])
  {
    LeftOrder(order, k);
    BlocksFrame(eps, eps - {order[k]}, order[..k] + order[k + 1..]);
    BlocksConcat(eps, order[..k], order[k + 1..]);
  }

  lemma LeftOrder(order: seq<Id>, k: nat)
    requires Distinct(order) && k < |order|
    ensures var order' := order[..k] + order[k + 1..];
            Distinct(order') && forall x :: x in order' <==> x in order && x != order[k]
  {
    var order' := order[..k] + order[k + 1..];
    forall x ensures x in order' <==> x in order && x != order[k] {
      if x in order && x != order[k] {
        var i :| 0 <= i < |order| && order[i] == x;
        assert i < k ==> order'[i] == x;
        assert i > k ==> order'[i - 1] == x;
      }
    }
  }

  lemma ReserveOrdered(eps: map<Id, seq<Rule>>, rules: seq<Rule>, base: seq<Rule>, order: seq<Id>, e: Id)
    requires Ordered(eps, rules, base, order) && e !in eps
    ensures Ordered(eps[e := []], rules, base, order)
  {
    BlocksFrame(eps, eps[e := []], order);
    hide Blocks;
  }

  lemma JoinOrdered(eps: map<Id, seq<Rule>>, rules: seq<Rule>, base: seq<Rule>, order: seq<Id>, e: Id, block: seq<Rule>)
    requires Ordered(eps, rules, base, order) && e in eps && eps[e] == [] && e !in order
    requires forall r :: r in block ==> r !in rules
    ensures Ordered(eps[e := block], rules + block, base, order + [e])
  {
    hide Blocks, Separate;
    BlocksFrame(eps, eps[e := block], order);
    BlocksSnoc(eps[e := block], order, e);
    assert base + Blocks(eps, order) + block == base + (Blocks(eps, order) + block);
    forall x, r | x in eps && r in eps[x] ensures r !in block {
      assert x in order;
      BlocksMember(eps, order, r);
    }
    JoinSeparate(eps, base, e, block);
    assert Distinct(order + [e]);
  }

  lemma JoinSeparate(eps: map<Id, seq<Rule>>, base: seq<Rule>, e: Id, block: seq<Rule>)
    requires Separate(eps, base) && (forall r :: r in block ==> r !in base)
    requires forall x, r :: x in eps && r in eps[x] ==> r !in block
    ensures Separate(eps[e := block], base)
  {
    var eps' := eps[e := block];
    forall x, y, r | x in eps' && y in eps' && x != y && r in eps'[x] ensures r !in eps'[y] {
    }
  }

  lemma LeaveOrdered(eps: map<Id, seq<Rule>>, rules: seq<Rule>, base: seq<Rule>, order: seq<Id>, e: Id)
    requires Ordered(eps, rules, base, order) && e in order
    ensures Ordered(eps - {e}, RemoveEach(rules, eps[e]), base, Without(order, e))
  {
    var k :| 0 <= k < |order| && order[k] == e;
    hide Blocks, RemoveEach, Without;
    WithoutAt(order, k);
    LeftOrder(order, k);
    NotBefore(eps, base, order, k);
    LeaveBlocks(eps, order, k);
    BlocksAround(eps, order, k);
    TakeOut(base, Blocks(eps, order[..k]), eps[e], Blocks(eps, order[k + 1..]));
    LeaveSeparate(eps, base, e);
    hide Separate;
  }

  lemma LeaveSeparate(eps: map<Id, seq<Rule>>, base: seq<Rule>, e: Id)
    requires Separate(eps, base)
    ensures Separate(eps - {e}, base)
  {
  }

  lemma TakeOut(host: seq<Rule>, a: seq<Rule>, block: seq<Rule>, b: seq<Rule>)
    requires forall r :: r in block ==> r !in host && r !in a
    ensures RemoveEach(host + (a + block + b), block) == host + (a + b)
  {
    assert host + (a + block + b) == (host + a) + block + b;
    RemoveBlock(host + a, block, b);
    assert host + a + b == host + (a + b);
  }

  lemma NotBefore(eps: map<Id, seq<Rule>>, base: seq<Rule>, order: seq<Id>, k: nat)
    requires Separate(eps, base) && Distinct(order) && k < |order| && forall e :: e in order ==> e in eps
    ensures forall r :: r in eps[order[k]] ==> r !in base && r !in Blocks(eps, order[..k])
  {
    var e := order[k];
    assert e in order && e !in order[..k];
    forall r | r in eps[e] ensures r !in base && r !in Blocks(eps, order[..k]) {
      BlocksMember(eps, order[..k], r);
    }
  }

  lemma LeftMembers(order: seq<Id>, e: Id)
    requires Distinct(order) && e in order
    ensures forall x :: x in Without(order, e) <==> x in order && x != e
  {
    var k :| 0 <= k < |order| && order[k] == e;
    WithoutAt(order, k);
    LeftOrder(order, k);
  }

  // -------------------------------------------------------------------------------------
  // What the operations do to the rules and to who has which

  lemma NoMasquerade(bridge: string, j: Joined)
    ensures forall r :: r in JoinRules(bridge, j) ==> !r.MasqueradeOut?
  {
    FourRulesPerMapping(bridge, j.gatewayIP, j.hostIP, j.maps);
  }

  /** What a join does to the rules and to who has which. */
  lemma JoinRulesNext(sys: Sys, id: Id, e: Id, j: Joined)
    requires Agree(sys) && Legal(sys, JoinContainer(id, e, j))
    ensures id in sys.state.networks
    ensures var sys', c, block := Next(sys, JoinContainer(id, e, j), NoFault), ClaimsOf(sys).eps, JoinRules(sys.state.networks[id].bridge, j);
            && e in c && c[e] == [] && ClaimsOf(sys').eps == c[e := block]
            && sys'.docker.eps == sys.docker.eps[e := Endpoint(id, true)] && sys'.state.rules == sys.state.rules + block
  {
    hide NetworksOk, OvsOk, OwnersOk, JoinScript, Exec, Veth, JoinRules;
    var sys' := Next(sys, JoinContainer(id, e, j), NoFault);
    assert EndpointOk(sys, e);
    hide EndpointsOk;
    JoinResult(sys.state, id, e, j);
    assert JoinsTo(sys, sys', id, e, j);
    hide Next;
    JoinClaims(sys, sys', id, e, j);
    assert e in ClaimsOf(sys).eps;
    hide ClaimsOf;
  }

  /** What a leave does to them. */
  lemma LeaveRulesNext(sys: Sys, id: Id, e: Id, host: multiset<Rule>)
    requires Agree(sys) && Conserved(sys, host) && Legal(sys, LeaveContainer(id, e))
    ensures var sys', c := Next(sys, LeaveContainer(id, e), NoFault), ClaimsOf(sys).eps;
            && e in c && ClaimsOf(sys').eps == c - {e} && (forall r :: r in c[e] ==> !r.MasqueradeOut?)
            && sys'.docker.eps == sys.docker.eps - {e} && sys'.state.rules == RemoveEach(sys.state.rules, c[e])
  {
    hide LeaveScript, Exec, Veth, JoinRules, OwnersOk, NetworksOk, OvsOk;
    var sys' := Next(sys, LeaveContainer(id, e), NoFault);
    assert EndpointOk(sys, e);
    hide EndpointsOk;
    JoinRulesPresent(sys, id, e, host);
    hide Conserved;
    LeaveStep(sys, id, e);
    hide Next;
    LeaveClaims(sys, sys', id, e);
    assert e in ClaimsOf(sys).eps;
    hide ClaimsOf;
    NoMasquerade(sys.state.networks[id].bridge, sys.state.ofPorts[e].joined.value);
  }

  lemma ReserveRulesNext(sys: Sys, id: Id, e: Id)
    requires Agree(sys) && Legal(sys, ReservePort(id, e))
    ensures var sys', c := Next(sys, ReservePort(id, e), NoFault), ClaimsOf(sys).eps;
            && e !in c && ClaimsOf(sys').eps == c[e := []]
            && sys'.docker.eps == sys.docker.eps[e := Endpoint(id, false)] && sys'.state.rules == sys.state.rules
  {
    hide Veth, Exec, ReserveScript, EndpointsOk, ClaimsOf;
    ReserveResult(sys, id, e);
    hide Agree, NetworksOk, OvsOk, OwnersOk;
    ReserveClaims(sys, Next(sys, ReservePort(id, e), NoFault), id, e);
  }

  /** No other operation changes who has which mapping rules.  It inserts a network's masquerading
      rule, or deletes one of those there are beyond the host's, or does neither. */
  ghost predicate OtherRules(rules: seq<Rule>, rules': seq<Rule>, host: multiset<Rule>) {
    || rules' == rules
    || (exists r: Rule :: r.MasqueradeOut? && rules' == [r] + rules)
    || (exists r: Rule :: r.MasqueradeOut? && multiset(rules)[r] > host[r] && rules' == RemoveFirst(rules, r))
  }

  lemma OthersRulesNext(sys: Sys, op: Op, host: multiset<Rule>)
    requires F.Inv(sys, host) && Legal(sys, op) && !op.ReservePort? && !op.JoinContainer? && !op.LeaveContainer?
    ensures var sys' := Next(sys, op, NoFault);
            && ClaimsOf(sys').eps == ClaimsOf(sys).eps && sys'.docker.eps == sys.docker.eps
            && OtherRules(sys.state.rules, sys'.state.rules, host)
  {
    hide NetworksOk, OvsOk, OwnersOk, EndpointsOk, Conserved, Exec, ClaimsOf, RemoveFirst;
    var sys' := Next(sys, op, NoFault);
    match op
    case InitBridge(id, net, lb, attached) => InitRulesNext(sys, id, net, lb, attached, host);
    case CreateNetwork(id, physical, copro) => CreateRulesNext(sys, id, physical, copro);
    case DeleteNetwork(id) => DeleteRulesNext(sys, id, host);
    case Reconcile(id, scrape) =>
      F.ReconcileQuiet(sys.state, id, scrape);
      EndpointClaimsFrame(sys, sys');
    case _ => EndpointClaimsFrame(sys, sys');
  }

  lemma InitRulesNext(sys: Sys, id: Id, net: Network, lb: nat, attached: map<string, nat>, host: multiset<Rule>)
    requires EndpointsOk(sys) && Legal(sys, InitBridge(id, net, lb, attached))
    ensures var sys' := Next(sys, InitBridge(id, net, lb, attached), NoFault);
            ClaimsOf(sys').eps == ClaimsOf(sys).eps && OtherRules(sys.state.rules, sys'.state.rules, host)
  {
    InitClaims(sys, id, net, lb, attached);
    hide ClaimsOf, EndpointsOk, AttachedOk, RemoveFirst;
    var r := MasqueradeOut(net.cidr);
    assert net.mode == Nat ==> Next(sys, InitBridge(id, net, lb, attached), NoFault).state.rules == [r] + sys.state.rules;
  }

  lemma CreateRulesNext(sys: Sys, id: Id, physical: seq<string>, copro: seq<string>)
    requires Agree(sys) && Legal(sys, CreateNetwork(id, physical, copro))
    ensures var sys' := Next(sys, CreateNetwork(id, physical, copro), NoFault);
            ClaimsOf(sys').eps == ClaimsOf(sys).eps && sys'.state.rules == sys.state.rules
  {
    hide NetworksOk, OvsOk, OwnersOk, EndpointsOk, CreateScript, Exec, Filled, Lists, ClaimsOf, SameBridges;
    var net, lb := sys.docker.nets[id].network, sys.docker.nets[id].lbPort;
    var sys' := Next(sys, CreateNetwork(id, physical, copro), NoFault);
    CreateResult(sys.state, id, net, lb, physical, copro, NoFault);
    CreateBridges(sys, sys', id);
    EndpointClaimsFrame(sys, sys');
  }

  lemma DeleteRulesNext(sys: Sys, id: Id, host: multiset<Rule>)
    requires F.Inv(sys, host) && Legal(sys, DeleteNetwork(id))
    ensures var sys' := Next(sys, DeleteNetwork(id), NoFault);
            ClaimsOf(sys').eps == ClaimsOf(sys).eps && OtherRules(sys.state.rules, sys'.state.rules, host)
  {
    hide OvsOk, OwnersOk, EndpointsOk, Exec, DeleteScript, RemoveFirst;
    var s, sys' := sys.state, Next(sys, DeleteNetwork(id), NoFault);
    NatRulePresent(sys, id, host);
    DeleteResult(s, id);
    assert Deletes(sys, sys', id);
    var r := MasqueradeOut(s.networks[id].cidr);
    if s.networks[id].mode == Nat {
      BeyondTheHosts(sys, sys', id, host);
    }
    hide Conserved;
    assert s.networks[id].mode == Nat ==> sys'.state.rules == RemoveFirst(s.rules, r);
    assert s.networks[id].mode != Nat ==> sys'.state.rules == s.rules;
    hide NetworksOk, Next;
    DeleteClaims(sys, sys', id);
    hide ClaimsOf;
  }

  /** A live network's own rule is there on top of the host's. */
  lemma BeyondTheHosts(sys: Sys, sys': Sys, id: Id, host: multiset<Rule>)
    requires F.Inv(sys, host) && Deletes(sys, sys', id) && sys.state.networks[id].mode == Nat
    ensures var r := MasqueradeOut(sys.state.networks[id].cidr); multiset(sys.state.rules)[r] > host[r]
  {
    hide OvsOk, OwnersOk, NetworksOk, EndpointsOk, ClaimsOf, Owed;
    var r, c := MasqueradeOut(sys.state.networks[id].cidr), ClaimsOf(sys);
    DeleteClaims(sys, sys', id);
    DropNatClaim(c, id, r);
  }

  // -------------------------------------------------------------------------------------
  // Whole runs

  /** No rule a join is about to add is there already. */
  ghost predicate FreshJoin(sys: Sys, op: Op) {
    op.JoinContainer? && op.id in sys.state.networks ==>
      forall r :: r in JoinRules(sys.state.networks[op.id].bridge, op.joined) ==> r !in sys.state.rules
  }

  ghost predicate FreshJoins(sys: Sys, events: seq<Event>)
    decreases |events|
  {
    events != [] ==> FreshJoin(sys, events[0].op) && FreshJoins(Next(sys, events[0].op, events[0].luck), events[1..])
  }

  ghost predicate OnlyMasquerade(front: seq<Rule>) {
    forall r :: r in front ==> r.MasqueradeOut?
  }

  /** The networks' rules in front, then the host's, then the joined endpoints' blocks in order. */
  ghost predicate Stacked(sys: Sys, front: seq<Rule>, base: seq<Rule>, order: seq<Id>) {
    && OnlyMasquerade(front) && |front| <= |sys.state.rules| && sys.state.rules[..|front|] == front
    && Ordered(ClaimsOf(sys).eps, sys.state.rules[|front|..], base, order)
    && (forall e :: e in order <==> e in sys.docker.eps && sys.docker.eps[e].joined)
  }

  lemma JoinStacked(sys: Sys, id: Id, e: Id, j: Joined, front: seq<Rule>, base: seq<Rule>, order: seq<Id>)
    requires Agree(sys) && Legal(sys, JoinContainer(id, e, j)) && FreshJoin(sys, JoinContainer(id, e, j)) && Stacked(sys, front, base, order)
    ensures Stacked(Next(sys, JoinContainer(id, e, j), NoFault), front, base, order + [e])
  {
    hide Agree, Next, ClaimsOf, JoinRules, Ordered;
    JoinRulesNext(sys, id, e, j);
    var block, rest := JoinRules(sys.state.networks[id].bridge, j), sys.state.rules[|front|..];
    assert (sys.state.rules + block)[..|front|] == front && (sys.state.rules + block)[|front|..] == rest + block;
    assert forall r :: r in rest ==> r in sys.state.rules;
    JoinOrdered(ClaimsOf(sys).eps, rest, base, order, e, block);
  }

  lemma LeaveStacked(sys: Sys, id: Id, e: Id, host: multiset<Rule>, front: seq<Rule>, base: seq<Rule>, order: seq<Id>)
    requires Agree(sys) && Conserved(sys, host) && Legal(sys, LeaveContainer(id, e)) && Stacked(sys, front, base, order)
    ensures Stacked(Next(sys, LeaveContainer(id, e), NoFault), front, base, Without(order, e))
  {
    hide Agree, Conserved, Next, ClaimsOf, Without, Blocks, RemoveEach, Separate;
    LeaveRulesNext(sys, id, e, host);
    var rest := sys.state.rules[|front|..];
    assert sys.state.rules == front + rest;
    RemoveEachPast(front, rest, ClaimsOf(sys).eps[e]);
    assert (front + RemoveEach(rest, ClaimsOf(sys).eps[e]))[|front|..] == RemoveEach(rest, ClaimsOf(sys).eps[e]);
    LeftMembers(order, e);
    LeaveOrdered(ClaimsOf(sys).eps, rest, base, order, e);
    hide Ordered;
  }

  lemma {:induction false} RemoveEachPast(front: seq<Rule>, rest: seq<Rule>, gone: seq<Rule>)
    requires forall r :: r in gone ==> r !in front
    ensures RemoveEach(front + rest, gone) == front + RemoveEach(rest, gone)
    decreases |gone|
  {
    if gone != [] {
      assert gone[0] in gone;
      RemovePast(front, rest, gone[0]);
      RemoveEachPast(front, RemoveFirst(rest, gone[0]), gone[1..]);
    }
  }

  lemma {:induction false} RemovePast(front: seq<Rule>, rest: seq<Rule>, r: Rule)
    requires r !in front
    ensures RemoveFirst(front + rest, r) == front + RemoveFirst(rest, r)
  {
    if front == [] {
      assert front + rest == rest && front + RemoveFirst(rest, r) == RemoveFirst(rest, r);
    } else {
      assert (front + rest)[1..] == front[1..] + rest;
      RemovePast(front[1..], rest, r);
    }
  }

  lemma {:induction false} RemoveWithin(front: seq<Rule>, rest: seq<Rule>, r: Rule)
    requires r in front
    ensures RemoveFirst(front + rest, r) == RemoveFirst(front, r) + rest && |RemoveFirst(front, r)| == |front| - 1
    ensures forall x :: x in RemoveFirst(front, r) ==> x in front
  {
    assert (front + rest)[1..] == front[1..] + rest;
    if front[0] != r {
      assert r in front[1..];
      RemoveWithin(front[1..], rest, r);
    }
  }

  lemma ClaimsPlain(sys: Sys)
    ensures forall e, r :: e in ClaimsOf(sys).eps && r in ClaimsOf(sys).eps[e] ==> !r.MasqueradeOut?
  {
    forall e, r | e in ClaimsOf(sys).eps && r in ClaimsOf(sys).eps[e] ensures !r.MasqueradeOut? {
      var n := sys.docker.eps[e].network;
      NoMasquerade(sys.state.networks[n].bridge, sys.state.ofPorts[e].joined.value);
    }
  }

  /** A masquerading rule there is beyond the host's is among those in front. */
  lemma FoundInFront(sys: Sys, front: seq<Rule>, base: seq<Rule>, order: seq<Id>, r: Rule)
    requires Stacked(sys, front, base, order) && r.MasqueradeOut? && multiset(sys.state.rules)[r] > multiset(base)[r]
    ensures r in front
  {
    ClaimsPlain(sys);
    var blocks := Blocks(ClaimsOf(sys).eps, order);
    BlocksMember(ClaimsOf(sys).eps, order, r);
    assert r !in blocks;
    hide ClaimsOf, Blocks;
    assert sys.state.rules == front + (base + blocks);
    assert multiset(sys.state.rules) == multiset(front) + (multiset(base) + multiset(blocks));
    assert multiset(blocks)[r] == 0;
  }

  lemma OthersStacked(sys: Sys, op: Op, front: seq<Rule>, base: seq<Rule>, order: seq<Id>) returns (front': seq<Rule>)
    requires F.Inv(sys, multiset(base)) && Legal(sys, op) && !op.ReservePort? && !op.JoinContainer? && !op.LeaveContainer?
    requires Stacked(sys, front, base, order)
    ensures Stacked(Next(sys, op, NoFault), front', base, order)
  {
    hide F.Inv, Legal, Next, ClaimsOf, Ordered, OtherRules;
    OthersRulesNext(sys, op, multiset(base));
    forall r: Rule | r.MasqueradeOut? && multiset(sys.state.rules)[r] > multiset(base)[r] ensures r in front {
      FoundInFront(sys, front, base, order, r);
    }
    front' := FrontNext(sys.state.rules, Next(sys, op, NoFault).state.rules, front, multiset(base));
  }

  lemma FrontNext(rules: seq<Rule>, rules': seq<Rule>, front: seq<Rule>, host: multiset<Rule>) returns (front': seq<Rule>)
    requires OtherRules(rules, rules', host) && OnlyMasquerade(front) && |front| <= |rules| && rules[..|front|] == front
    requires forall r: Rule :: r.MasqueradeOut? && multiset(rules)[r] > host[r] ==> r in front
    ensures OnlyMasquerade(front') && |front'| <= |rules'| && rules'[..|front'|] == front' && rules'[|front'|..] == rules[|front|..]
  {
    var rest := rules[|front|..];
    assert rules == front + rest;
    if rules' == rules {
      front' := front;
    } else if r: Rule :| r.MasqueradeOut? && rules' == [r] + rules {
      front' := [r] + front;
      assert rules' == front' + rest;
    } else {
      var r: Rule :| r.MasqueradeOut? && multiset(rules)[r] > host[r] && rules' == RemoveFirst(rules, r);
      RemoveWithin(front, rest, r);
      hide RemoveFirst;
      front' := RemoveFirst(front, r);
      assert rules' == front' + rest;
    }
  }

  lemma ReserveStacked(sys: Sys, id: Id, e: Id, front: seq<Rule>, base: seq<Rule>, order: seq<Id>)
    requires Agree(sys) && Legal(sys, ReservePort(id, e)) && Stacked(sys, front, base, order)
    ensures Stacked(Next(sys, ReservePort(id, e), NoFault), front, base, order)
  {
    hide Agree, Next, ClaimsOf, Ordered;
    ReserveRulesNext(sys, id, e);
    ReserveOrdered(ClaimsOf(sys).eps, sys.state.rules[|front|..], base, order, e);
  }

  lemma StepStacked(sys: Sys, op: Op, front: seq<Rule>, base: seq<Rule>, order: seq<Id>) returns (front': seq<Rule>)
    requires F.Inv(sys, multiset(base)) && Legal(sys, op) && FreshJoin(sys, op) && Stacked(sys, front, base, order)
    ensures Stacked(Next(sys, op, NoFault), front', base, OrderNext(order, op))
  {
    hide Agree, Conserved, Legal, Next, FreshJoin, Stacked;
    front' := front;
    match op
    case ReservePort(id, e) => ReserveStacked(sys, id, e, front, base, order);
    case JoinContainer(id, e, j) => JoinStacked(sys, id, e, j, front, base, order);
    case LeaveContainer(id, e) => LeaveStacked(sys, id, e, multiset(base), front, base, order);
    case _ => front' := OthersStacked(sys, op, front, base, order);
  }

  lemma {:induction false} RunStacked(sys: Sys, events: seq<Event>, front: seq<Rule>, base: seq<Rule>, order: seq<Id>)
    returns (front': seq<Rule>)
    requires F.Inv(sys, multiset(base)) && LegalRun(sys, events) && Handlers.FaultFree(events) && FreshJoins(sys, events)
    requires Stacked(sys, front, base, order)
    ensures Stacked(Run(sys, events), front', base, JoinOrder(order, events))
    decreases |events|
  {
    hide F.Inv, Legal, Next, FreshJoin, Stacked;
    if events == [] {
      front' := front;
    } else {
      var front1 := StepStacked(sys, events[0].op, front, base, order);
      F.StepInv(sys, events[0].op, multiset(base));
      front' := RunStacked(Next(sys, events[0].op, NoFault), events[1..], front1, base, OrderNext(order, events[0].op));
    }
  }

  /** Over every fault-free run in which no join finds a rule of its own in place, the rules are the
      networks' masquerading rules, the host's own in their order, and the blocks of the joined
      endpoints, longest joined first. */
  lemma OrderTheorem(sys: Sys, events: seq<Event>)
    requires Initial(sys) && LegalRun(sys, events) && Handlers.FaultFree(events) && FreshJoins(sys, events)
    ensures exists front :: Stacked(Run(sys, events), front, sys.state.rules, JoinOrder([], events))
  {
    F.InitialInv(sys);
    InitiallyStacked(sys);
    hide Initial, Stacked;
    var front := RunStacked(sys, events, [], sys.state.rules, []);
  }

  lemma InitiallyStacked(sys: Sys)
    requires Initial(sys)
    ensures Stacked(sys, [], sys.state.rules, [])
  {
    assert ClaimsOf(sys).eps == map[];
    assert sys.state.rules + [] == sys.state.rules;
  }

  lemma SomeMember(order: seq<Id>)
    requires order != []
    ensures exists e :: e in order
  {
    assert order[0] in order;
  }

  /** And when Docker has nothing left, they are the host's own, in their order. */
  lemma RulesRestored(sys: Sys, events: seq<Event>)
    requires Initial(sys) && LegalRun(sys, events) && Handlers.FaultFree(events) && FreshJoins(sys, events)
    requires Run(sys, events).docker == Docker(map[], map[])
    ensures Run(sys, events).state.rules == sys.state.rules
  {
    OrderTheorem(sys, events);
    F.FaultFreeTheorem(sys, events);
    var last, order, base := Run(sys, events), JoinOrder([], events), sys.state.rules;
    var front :| Stacked(last, front, base, order);
    hide Run, LegalRun, Initial, FreshJoins, Agree;
    L.NothingOwed(last, multiset(base));
    hide Conserved;
    if order != [] {
      SomeMember(order);
    }
    assert last.state.rules == front + (base + []);
    assert |multiset(last.state.rules)| == |last.state.rules| && |multiset(base)| == |base|;
  }
}
