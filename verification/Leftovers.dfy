/**
 What a run leaves behind once all networks and endpoints are gone: nothing in the records
 that are kept in step, and the cached scrapes, which are never dropped.
 */
module Leftovers {
  import opened Types
  import opened Rules
  import opened World
  import opened Handlers
  import opened Agreement
  import opened NetworkAgreement
  import opened Conservation
  import FaultFree
  import FaultyRuns

  /** Nothing is left behind: once Docker has no endpoint and no network, whatever the run was,
      networks, mirror configurations and OFPorts are empty, the rules are the host's own again,
      and no container's port or interface remains anywhere. */
  lemma NothingLeftBehind(sys: Sys, events: seq<Event>)
    requires Initial(sys) && LegalRun(sys, events) && Handlers.FaultFree(events)
    requires Run(sys, events).docker == Docker(map[], map[])
    ensures var s := Run(sys, events).state;
            && s.networks == map[] && s.mirrors == map[] && s.ofPorts == map[] && multiset(s.rules) == multiset(sys.state.rules)
            && (forall name :: name in s.ovs ==> !IsContainerPort(name))
            && (forall dp, p :: p in Table(s, dp) ==> !Table(s, dp)[p].Container?)
  {
    FaultFree.FaultFreeTheorem(sys, events);
    var last := Run(sys, events);
    hide Run, LegalRun;
    NothingOwed(last, multiset(sys.state.rules));
    hide Conserved;
    assert forall n :: n !in last.state.networks && n !in last.state.mirrors;
    assert forall e :: e !in last.state.ofPorts;
  }

  lemma NothingOwed(sys: Sys, base: multiset<Rule>)
    requires Conserved(sys, base) && sys.docker == Docker(map[], map[])
    ensures multiset(sys.state.rules) == base
  {
    var c := ClaimsOf(sys);
    forall r ensures multiset(sys.state.rules)[r] == base[r] {
      assert EndpointClaims(c.eps, r) == {} && NatClaims(c.nats, r) == {};
    }
  }

  /** A container's whole life, on a network made for it, from any fresh start. */
  function LifeCycle(id: Id, net: Network, lb: nat, e: Id, j: Joined): seq<Event> {
    [Event(InitBridge(id, net, lb, map[]), NoFault), Event(CreateNetwork(id, [], []), NoFault),
     Event(ReservePort(id, e), NoFault), Event(JoinContainer(id, e, j), NoFault),
     Event(LeaveContainer(id, e), NoFault), Event(DeleteNetwork(id), NoFault)]
  }

  /** Such a life is one Docker can ask for, so the theorems above have runs to speak of; and it
      ends with every one of the manager's maps and the rules as they began. */
  lemma LifeCycleRestores(sys: Sys, id: Id, net: Network, lb: nat, e: Id, j: Joined)
    requires Initial(sys) && net.containers == map[] && net.externals == map[] && net.physical == map[] && net.copro == {}
    ensures var events := LifeCycle(id, net, lb, e, j);
            && LegalRun(sys, events) && Handlers.FaultFree(events)
            && Run(sys, events).state.networks == sys.state.networks
            && Run(sys, events).state.mirrors == sys.state.mirrors
            && Run(sys, events).state.ofPorts == sys.state.ofPorts
            && Run(sys, events).state.cache.Keys == sys.state.cache.Keys
            && multiset(Run(sys, events).state.rules) == multiset(sys.state.rules)
  {
    var events := LifeCycle(id, net, lb, e, j);
    LifeCycleLegal(sys, id, net, lb, e, j);
    NothingLeftBehind(sys, events);
    forall n ensures n in Run(sys, events).state.cache <==> n in sys.state.cache {
      CachedIff(sys, events, n);
      NoScrapes(sys, events, n);
    }
  }

  lemma {:induction false} NoScrapes(sys: Sys, events: seq<Event>, id: Id)
    requires forall i :: 0 <= i < |events| ==> !events[i].op.Reconcile?
    ensures !Scraped(sys, events, id)
    decreases |events|
  {
    hide Next;
    if events != [] {
      NoScrapes(Next(sys, events[0].op, events[0].luck), events[1..], id);
    }
  }

  lemma LifeCycleLegal(sys: Sys, id: Id, net: Network, lb: nat, e: Id, j: Joined)
    requires Initial(sys) && net.containers == map[] && net.externals == map[] && net.physical == map[] && net.copro == {}
    ensures var events := LifeCycle(id, net, lb, e, j);
            LegalRun(sys, events) && Run(sys, events).docker == Docker(map[], map[])
  {
    hide Legal, Next, LegalRun, Run;
    var events := LifeCycle(id, net, lb, e, j);
    var sys1 := Next(sys, events[0].op, NoFault);
    InitLegal(sys, id, net, lb);
    CreateLegal(sys1, id, net, lb);
    RestLegal(Next(sys1, events[1].op, NoFault), id, net, lb, e, j);
    hide Initial;
    SixSteps(sys, events);
  }

  lemma InitLegal(sys: Sys, id: Id, net: Network, lb: nat)
    requires Initial(sys) && net.containers == map[] && net.externals == map[]
    ensures var op := InitBridge(id, net, lb, map[]);
            var sys' := Next(sys, op, NoFault);
            && Legal(sys, op)
            && sys'.docker == Docker(map[id := Requested(net, lb, false)], map[]) && sys'.state.ofPorts == map[]
  {
    InitShape(sys, id, net, lb, map[]);
  }

  lemma CreateLegal(sys: Sys, id: Id, net: Network, lb: nat)
    requires sys.docker == Docker(map[id := Requested(net, lb, false)], map[]) && sys.state.ofPorts == map[]
    requires net.physical == map[] && net.copro == {}
    ensures var op := CreateNetwork(id, [], []);
            var sys' := Next(sys, op, NoFault);
            && Legal(sys, op)
            && sys'.docker == Docker(map[id := Requested(net, lb, true)], map[]) && sys'.state.ofPorts == map[]
  {
    hide Exec, CreateScript;
    CreateResult(sys.state, id, net, lb, [], [], NoFault);
    assert Lists([], net.physical.Keys) && Lists([], net.copro);
  }

  lemma RestLegal(sys: Sys, id: Id, net: Network, lb: nat, e: Id, j: Joined)
    requires sys.docker == Docker(map[id := Requested(net, lb, true)], map[]) && sys.state.ofPorts == map[]
    ensures var sys1 := Next(sys, ReservePort(id, e), NoFault);
            var sys2 := Next(sys1, JoinContainer(id, e, j), NoFault);
            var sys3 := Next(sys2, LeaveContainer(id, e), NoFault);
            && Legal(sys, ReservePort(id, e)) && Legal(sys1, JoinContainer(id, e, j))
            && Legal(sys2, LeaveContainer(id, e)) && Legal(sys3, DeleteNetwork(id))
            && Next(sys3, DeleteNetwork(id), NoFault).docker == Docker(map[], map[])
  {
    hide StateNext;
    var nets := map[id := Requested(net, lb, true)];
    assert DockerNext(Docker(nets, map[]), ReservePort(id, e), NoFault) == Docker(nets, map[e := Endpoint(id, false)]);
    assert DockerNext(Docker(nets, map[e := Endpoint(id, false)]), JoinContainer(id, e, j), NoFault) == Docker(nets, map[e := Endpoint(id, true)]);
    assert DockerNext(Docker(nets, map[e := Endpoint(id, true)]), LeaveContainer(id, e), NoFault) == Docker(nets, map[]);
    assert DockerNext(Docker(nets, map[]), DeleteNetwork(id), NoFault) == Docker(map[], map[]);
  }

  lemma SixSteps(sys: Sys, events: seq<Event>)
    requires |events| == 6 && Handlers.FaultFree(events)
    requires var s1 := Next(sys, events[0].op, NoFault);
             var s2 := Next(s1, events[1].op, NoFault);
             var s3 := Next(s2, events[2].op, NoFault);
             var s4 := Next(s3, events[3].op, NoFault);
             var s5 := Next(s4, events[4].op, NoFault);
             && Legal(sys, events[0].op) && Legal(s1, events[1].op) && Legal(s2, events[2].op)
             && Legal(s3, events[3].op) && Legal(s4, events[4].op) && Legal(s5, events[5].op)
    ensures LegalRun(sys, events)
    ensures var s1 := Next(sys, events[0].op, NoFault);
            var s2 := Next(s1, events[1].op, NoFault);
            var s3 := Next(s2, events[2].op, NoFault);
            var s4 := Next(s3, events[3].op, NoFault);
            var s5 := Next(s4, events[4].op, NoFault);
            Run(sys, events) == Next(s5, events[5].op, NoFault)
  {
    hide Legal, Next;
    var s1 := Next(sys, events[0].op, NoFault);
    var s2 := Next(s1, events[1].op, NoFault);
    var s3 := Next(s2, events[2].op, NoFault);
    var s4 := Next(s3, events[3].op, NoFault);
    var s5 := Next(s4, events[4].op, NoFault);
    var s6 := Next(s5, events[5].op, NoFault);
    Unroll(s5, events[5..]);
    assert events[6..] == [];
    Unroll(s4, events[4..]);
    Unroll(s3, events[3..]);
    Unroll(s2, events[2..]);
    Unroll(s1, events[1..]);
    Unroll(sys, events);
    assert events[1..][1..] == events[2..] && events[2..][1..] == events[3..] && events[3..][1..] == events[4..];
    assert events[4..][1..] == events[5..] && events[5..][1..] == events[6..];
  }

  lemma Unroll(sys: Sys, events: seq<Event>)
    requires events != []
    ensures var sys' := Next(sys, events[0].op, events[0].luck);
            && (LegalRun(sys, events) <==> Legal(sys, events[0].op) && LegalRun(sys', events[1..]))
            && Run(sys, events) == Run(sys', events[1..])
  {
    hide Legal, Next;
  }

  // -------------------------------------------------------------------------------------
  // The cache of scrapes

  lemma {:induction false} ExecKeepsCache(s: State, script: seq<Step>, luck: Luck)
    ensures Exec(s, script, luck).state.cache == s.cache
    decreases |script|
  {
    if script != [] {
      PerformKeepsCache(s, script[0]);
      ExecKeepsCache(Perform(s, script[0]), script[1..], luck);
      ExecKeepsCache(Perform(s, script[0]), script[1..], Spend(luck));
    }
  }

  lemma PerformKeepsCache(s: State, step: Step)
    ensures Perform(s, step).cache == s.cache
  {
    hide Table, WithoutBridge, NoteExternal, NoteContainer, DropContainer, RemoveFirst;
  }

  /** Some scrape of this network succeeds in the run. */
  ghost predicate Scraped(sys: Sys, events: seq<Event>, id: Id)
    decreases |events|
  {
    events != [] &&
    (|| (ScrapedBy(events[0].op, id) && id in sys.state.networks)
     || Scraped(Next(sys, events[0].op, events[0].luck), events[1..], id))
  }

  predicate ScrapedBy(op: Op, id: Id) {
    op.Reconcile? && op.id == id && op.scrape.Some?
  }

  lemma StepCache(sys: Sys, op: Op, luck: Luck, id: Id)
    ensures id in Next(sys, op, luck).state.cache <==> id in sys.state.cache || (ScrapedBy(op, id) && id in sys.state.networks)
  {
    hide Exec, Script;
    match op
    case CreateNetwork(_, _, _) => ExecKeepsCache(sys.state, Script(sys, op), luck);
    case DeleteNetwork(_) => ExecKeepsCache(sys.state, Script(sys, op), luck);
    case ReservePort(_, _) => ExecKeepsCache(sys.state, Script(sys, op), luck);
    case JoinContainer(_, _, _) => ExecKeepsCache(sys.state, Script(sys, op), luck);
    case LeaveContainer(_, _) => ExecKeepsCache(sys.state, Script(sys, op), luck);
    case Reconcile(_, _) => hide InitOutcome, DhcpState;
    case _ =>
  }

  /** In every run, faults included: a network is in the cache at the end exactly if it was there
      at the beginning or some scrape of it succeeded, whether or not it still exists. */
  lemma {:induction false} CachedIff(sys: Sys, events: seq<Event>, id: Id)
    ensures id in Run(sys, events).state.cache <==> id in sys.state.cache || Scraped(sys, events, id)
    decreases |events|
  {
    if events != [] {
      StepCache(sys, events[0].op, events[0].luck, id);
      hide Next;
      CachedIff(Next(sys, events[0].op, events[0].luck), events[1..], id);
    }
  }

  /** A network that is created, reconciled once and deleted. */
  function ShortLife(id: Id, net: Network, lb: nat): seq<Event> {
    [Event(InitBridge(id, net, lb, map[]), NoFault), Event(CreateNetwork(id, [], []), NoFault),
     Event(Reconcile(id, Some(map[])), NoFault), Event(DeleteNetwork(id), NoFault)]
  }

  /** Its scrape stays in the cache for good. */
  lemma ScrapeOutlivesNetwork(sys: Sys, id: Id, net: Network, lb: nat)
    requires Initial(sys) && net.containers == map[] && net.externals == map[] && net.physical == map[] && net.copro == {}
    ensures var events := ShortLife(id, net, lb);
            && LegalRun(sys, events) && Handlers.FaultFree(events)
            && Run(sys, events).state.networks == map[] && id in Run(sys, events).state.cache
  {
    hide Next, Legal, LegalRun, Run;
    var events := ShortLife(id, net, lb);
    var sys1 := Next(sys, events[0].op, NoFault);
    var sys2 := Next(sys1, events[1].op, NoFault);
    var sys3 := Next(sys2, events[2].op, NoFault);
    InitLegal(sys, id, net, lb);
    InitBare(sys, id, net, lb);
    CreateLegal(sys1, id, net, lb);
    CreateBare(sys1, id, net, lb);
    ReconcileBare(sys2, id, net, lb);
    hide Initial;
    FourSteps(sys, events);
    CachedIff(sys, events, id);
    assert Scraped(sys, events, id) by {
      assert events[1..][1..] == events[2..];
      assert Scraped(sys2, events[2..], id);
      assert Scraped(sys1, events[1..], id);
    }
    NothingLeftBehind(sys, events);
  }

  lemma InitBare(sys: Sys, id: Id, net: Network, lb: nat)
    ensures var s' := Next(sys, InitBridge(id, net, lb, map[]), NoFault).state;
            forall name :: name in s'.ovs ==> s'.ovs[name].bridge != net.bridge
  {
  }

  lemma CreateBare(sys: Sys, id: Id, net: Network, lb: nat)
    requires id in sys.docker.nets && sys.docker.nets[id] == Requested(net, lb, false)
    requires forall name :: name in sys.state.ovs ==> sys.state.ovs[name].bridge != net.bridge
    ensures var s' := Next(sys, CreateNetwork(id, [], []), NoFault).state;
            && id in s'.networks && s'.networks[id].bridge == net.bridge
            && forall name :: name in s'.ovs ==> s'.ovs[name].bridge != net.bridge
  {
    hide Exec, CreateScript;
    CreateResult(sys.state, id, net, lb, [], [], NoFault);
  }

  lemma ReconcileBare(sys: Sys, id: Id, net: Network, lb: nat)
    requires sys.docker == Docker(map[id := Requested(net, lb, true)], map[])
    requires id in sys.state.networks && sys.state.networks[id].bridge == net.bridge
    requires forall name :: name in sys.state.ovs ==> sys.state.ovs[name].bridge != net.bridge
    ensures var sys' := Next(sys, Reconcile(id, Some(map[])), NoFault);
            && Legal(sys, Reconcile(id, Some(map[]))) && Legal(sys', DeleteNetwork(id))
            && Next(sys', DeleteNetwork(id), NoFault).docker == Docker(map[], map[])
  {
    hide StateNext;
    assert IsScrape(sys.state, net.bridge, map[]);
  }

  lemma FourSteps(sys: Sys, events: seq<Event>)
    requires |events| == 4 && Handlers.FaultFree(events)
    requires var s1 := Next(sys, events[0].op, NoFault);
             var s2 := Next(s1, events[1].op, NoFault);
             var s3 := Next(s2, events[2].op, NoFault);
             Legal(sys, events[0].op) && Legal(s1, events[1].op) && Legal(s2, events[2].op) && Legal(s3, events[3].op)
    ensures LegalRun(sys, events)
    ensures var s1 := Next(sys, events[0].op, NoFault);
            var s2 := Next(s1, events[1].op, NoFault);
            var s3 := Next(s2, events[2].op, NoFault);
            Run(sys, events) == Next(s3, events[3].op, NoFault)
  {
    hide Legal, Next;
    var s1 := Next(sys, events[0].op, NoFault);
    var s2 := Next(s1, events[1].op, NoFault);
    var s3 := Next(s2, events[2].op, NoFault);
    Unroll(s3, events[3..]);
    Unroll(s2, events[2..]);
    Unroll(s1, events[1..]);
    Unroll(sys, events);
    assert events[1..][1..] == events[2..] && events[2..][1..] == events[3..] && events[3..][1..] == [];
  }

  // -------------------------------------------------------------------------------------
  // A reservation that outlives its endpoint

  /** The join panics before it does anything; Docker knows nothing of it and the container leaves. */
  function FailedLife(id: Id, net: Network, lb: nat, e: Id, j: Joined): seq<Event> {
    [Event(InitBridge(id, net, lb, map[]), NoFault), Event(CreateNetwork(id, [], []), NoFault), Event(ReservePort(id, e), NoFault)]
    + [Event(JoinContainer(id, e, j), FaultAfter(0)), Event(LeaveContainer(id, e), NoFault)]
  }

  /** Such a run is legal, and it ends with the endpoint gone and its reservation still there. */
  lemma StaleReservationReached(sys: Sys, id: Id, net: Network, lb: nat, e: Id, j: Joined)
    requires Initial(sys) && net.containers == map[] && net.externals == map[] && net.physical == map[] && net.copro == {}
    requires j.maps == []
    ensures var events := FailedLife(id, net, lb, e, j);
            && LegalRun(sys, events)
            && Run(sys, events).docker.eps == map[] && e in Run(sys, events).state.ofPorts && Veth(e) !in Run(sys, events).state.ovs
  {
    hide Next, Legal, LegalRun, Run, Veth, Agree, Conserved;
    var events := FailedLife(id, net, lb, e, j);
    var sys1 := Next(sys, events[0].op, NoFault);
    var sys2 := Next(sys1, events[1].op, NoFault);
    var sys3 := Next(sys2, events[2].op, NoFault);
    var sys4 := Next(sys3, events[3].op, FaultAfter(0));
    var sys5 := Next(sys4, events[4].op, NoFault);
    InitLegal(sys, id, net, lb);
    CreateLegal(sys1, id, net, lb);
    ReserveLegal(sys2, id, net, lb, e);
    ThreeStepsAgree(sys, sys1, sys2, sys3, events);
    hide Initial;
    FailedJoin(sys3, id, e, j);
    LeaveStale(sys4, id, e);
    assert [events[4]] == events[4..] && events[5..] == [];
    Unroll(sys4, events[4..]);
    Unroll(sys3, events[3..]);
    Unroll(sys2, events[2..]);
    Unroll(sys1, events[1..]);
    Unroll(sys, events);
    assert events[1..][1..] == events[2..] && events[2..][1..] == events[3..] && events[3..][1..] == events[4..] && events[4..][1..] == [];
    EndOfRun(sys5);
  }

  lemma EndOfRun(sys: Sys)
    ensures LegalRun(sys, []) && Run(sys, []) == sys
  {
  }

  lemma ReserveLegal(sys: Sys, id: Id, net: Network, lb: nat, e: Id)
    requires sys.docker == Docker(map[id := Requested(net, lb, true)], map[]) && sys.state.ofPorts == map[]
    ensures Legal(sys, ReservePort(id, e))
    ensures Next(sys, ReservePort(id, e), NoFault).docker == Docker(sys.docker.nets, map[e := Endpoint(id, false)])
  {
    hide StateNext;
    assert DockerNext(sys.docker, ReservePort(id, e), NoFault) == Docker(sys.docker.nets, map[e := Endpoint(id, false)]);
  }

  /** Three steps without a fault reach a state in which all records agree. */
  lemma ThreeStepsAgree(sys: Sys, sys1: Sys, sys2: Sys, sys3: Sys, events: seq<Event>)
    requires Initial(sys) && |events| >= 3
    requires Legal(sys, events[0].op) && sys1 == Next(sys, events[0].op, NoFault)
    requires Legal(sys1, events[1].op) && sys2 == Next(sys1, events[1].op, NoFault)
    requires Legal(sys2, events[2].op) && sys3 == Next(sys2, events[2].op, NoFault)
    ensures Agree(sys3)
  {
    hide Next, Legal, Agree, Conserved;
    var base := multiset(sys.state.rules);
    FaultFree.InitialInv(sys);
    FaultFree.StepInv(sys, events[0].op, base);
    FaultFree.StepInv(sys1, events[1].op, base);
    FaultFree.StepInv(sys2, events[2].op, base);
  }

  lemma FailedJoin(sys: Sys, id: Id, e: Id, j: Joined)
    requires Agree(sys) && sys.docker.eps == map[e := Endpoint(id, false)] && j.maps == []
    ensures var sys' := Next(sys, JoinContainer(id, e, j), FaultAfter(0));
            && Legal(sys, JoinContainer(id, e, j)) && sys'.docker.eps == map[e := Endpoint(id, true)]
            && id in sys'.state.networks && e in sys'.state.ofPorts && sys'.state.ofPorts[e].joined.None?
            && Veth(e) in sys'.state.ovs && sys'.state.ovs[Veth(e)].bridge == sys'.state.networks[id].bridge
  {
    hide Veth, Agree, Next, Legal;
    ReservedEndpoint(sys, id, e);
    FailedJoinNext(sys, id, e, j);
    assert sys.docker.eps[e := Endpoint(id, true)] == map[e := Endpoint(id, true)];
  }

  /** What the agreement says of an endpoint that has been reserved and not yet joined. */
  lemma ReservedEndpoint(sys: Sys, id: Id, e: Id)
    requires Agree(sys) && e in sys.docker.eps && sys.docker.eps[e] == Endpoint(id, false)
    ensures var s := sys.state;
            && id in s.networks && e in s.ofPorts && s.ofPorts[e].joined.None?
            && Veth(e) in s.ovs && s.ovs[Veth(e)].bridge == s.networks[id].bridge
  {
    hide Veth, NetworksOk, OvsOk, OwnersOk;
    assert EndpointOk(sys, e);
  }

  lemma FailedJoinNext(sys: Sys, id: Id, e: Id, j: Joined)
    requires id in sys.state.networks && e in sys.docker.eps && sys.docker.eps[e] == Endpoint(id, false) && j.maps == []
    ensures var op := JoinContainer(id, e, j);
            && Legal(sys, op) && Next(sys, op, FaultAfter(0)).docker.eps == sys.docker.eps[e := Endpoint(id, true)]
            && Next(sys, op, FaultAfter(0)).state == sys.state
  {
    hide Exec, JoinScript;
    JoinFails(sys.state, id, e, j);
  }

  lemma JoinFails(s: State, id: Id, e: Id, j: Joined)
    requires id in s.networks && j.maps == []
    ensures Exec(s, JoinScript(s, id, e, j), FaultAfter(0)).state == s
  {
    hide Exec;
    var script := JoinScript(s, id, e, j);
    assert JoinRules(s.networks[id].bridge, j) == [];
    assert script[0].MergeIfaces? && script == [script[0]] + script[1..];
    ExecCons(s, script[0], script[1..], FaultAfter(0));
  }

  lemma LeaveStale(sys: Sys, id: Id, e: Id)
    requires sys.docker.eps == map[e := Endpoint(id, true)]
    requires id in sys.state.networks && e in sys.state.ofPorts && sys.state.ofPorts[e].joined.None?
    requires Veth(e) in sys.state.ovs && sys.state.ovs[Veth(e)].bridge == sys.state.networks[id].bridge
    ensures var sys' := Next(sys, LeaveContainer(id, e), NoFault);
            Legal(sys, LeaveContainer(id, e)) && sys'.docker.eps == map[] && e in sys'.state.ofPorts && Veth(e) !in sys'.state.ovs
  {
    hide Veth, Exec, LeaveScript;
    FaultyRuns.StaleReservationIff(sys.state, id, e);
  }
}
