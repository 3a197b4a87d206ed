/**
 The reconciler inside the whole system.  Joins, leaves and creations work on the same tables
 between its passes; this is when, number by number, the controller's external interfaces stay
 what the cached scrape calls for.
 */
module Refinement {
  import opened Types
  import opened Rules
  import opened World
  import opened Handlers
  import opened Entries
  import A = Agreement
  import C = Creation
  import N = NetworkAgreement
  import FF = FaultFree
  import R = Reconciler

  /** The controller has an external interface at this number. */
  predicate ExternalAt(s: State, id: Id, p: nat)
    requires id in s.networks
  {
    var entry := EntryAt(s, id, p);
    entry.Some? && entry.value.Physical? && entry.value.name !in SettingsOf(s, id).creation
  }

  /** At this number the controller has the external interface the cached scrape calls for, or
      none if it calls for none. */
  ghost predicate InStep(s: State, id: Id, p: nat) {
    id in s.networks &&
    var c, cached := SettingsOf(s, id), Cached(s, id);
    if R.Wants(c, cached, p) then EntryAt(s, id, p) == Some(Physical(cached[p], c.vlan)) else !ExternalAt(s, id, p)
  }

  /** The two ways to fall out of step: an endpoint joins at a number where the cached scrape has
      an external port, or a scrape shows an ignored name where the cached one has a wanted. */
  ghost predicate Breaks(sys: Sys, op: Op, id: Id, p: nat) {
    var s := sys.state;
    id in s.networks &&
    var c, cached := SettingsOf(s, id), Cached(s, id);
    || (op.JoinContainer? && Uses(sys, op, id, p) && R.Wants(c, cached, p))
    || (op.Reconcile? && op.id == id && op.scrape.Some? && op.scrape.value != cached && R.Demoted(c, cached, op.scrape.value, p))
  }

  /** A number that carries a joined endpoint carries a container's interface. */
  lemma JoinedNumber(sys: Sys, host: multiset<Rule>, id: Id, e: Id)
    requires FF.Inv(sys, host) && e in sys.docker.eps && sys.docker.eps[e] == Endpoint(id, true)
    ensures id in sys.state.networks && e in sys.state.ofPorts
    ensures EntryAt(sys.state, id, sys.state.ofPorts[e].port).Some? && EntryAt(sys.state, id, sys.state.ofPorts[e].port).value.Container?
  {
    assert A.EndpointOk(sys, e);
  }

  lemma OwnPassInStep(s: State, scrape: Option<R.PortDesc>, id: Id, p: nat)
    requires InStep(s, id, p)
    ensures InStep(ReconcileState(s, id, scrape), id, p) <==>
            !(scrape.Some? && scrape.value != Cached(s, id) && R.Demoted(SettingsOf(s, id), Cached(s, id), scrape.value, p))
  {
    hide ReconcileState;
    OwnPass(s, scrape, id, p);
    hide SettingsOf;
  }

  lemma OthersInStep(sys: Sys, op: Op, host: multiset<Rule>, id: Id, p: nat)
    requires FF.Inv(sys, host) && Legal(sys, op) && op != DeleteNetwork(id) && !(op.Reconcile? && op.id == id)
    requires InStep(sys.state, id, p)
    ensures InStep(Next(sys, op, NoFault).state, id, p) <==>
            !(op.JoinContainer? && Uses(sys, op, id, p) && R.Wants(SettingsOf(sys.state, id), Cached(sys.state, id), p))
  {
    hide FF.Inv, Next, EntryEffect;
    if op.LeaveContainer? && Uses(sys, op, id, p) {
      JoinedNumber(sys, host, id, op.endpoint);
    }
    StepEntry(sys, op, host, id, p);
    hide Legal;
    EffectInStep(sys.state, Next(sys, op, NoFault).state, id, p, Uses(sys, op, id, p));
  }

  /** A container's entry, or none, is in step exactly if the cached scrape wants nothing there. */
  lemma EffectInStep(s: State, s': State, id: Id, p: nat, used: bool)
    requires InStep(s, id, p) && EntryEffect(s, s', id, p, used)
    ensures InStep(s', id, p) <==> !(used && R.Wants(SettingsOf(s, id), Cached(s, id), p))
  {
    hide SettingsOf, EntryAt, R.Wants;
  }

  /** One operation keeps a number in step exactly unless it is one of those two. */
  lemma StepInStepIff(sys: Sys, op: Op, host: multiset<Rule>, id: Id, p: nat)
    requires FF.Inv(sys, host) && Legal(sys, op) && op != DeleteNetwork(id) && InStep(sys.state, id, p)
    ensures InStep(Next(sys, op, NoFault).state, id, p) <==> !Breaks(sys, op, id, p)
  {
    hide FF.Inv, SettingsOf, Uses;
    if op.Reconcile? && op.id == id {
      hide ReconcileState;
      OwnPassInStep(sys.state, op.scrape, id, p);
    } else {
      hide Next;
      OthersInStep(sys, op, host, id, p);
    }
  }

  /** In step now and after every event to come. */
  ghost predicate AlwaysInStep(sys: Sys, events: seq<Event>, id: Id, p: nat)
    decreases |events|
  {
    InStep(sys.state, id, p) && (events != [] ==> AlwaysInStep(Next(sys, events[0].op, events[0].luck), events[1..], id, p))
  }

  ghost predicate NeverBreaks(sys: Sys, events: seq<Event>, id: Id, p: nat)
    decreases |events|
  {
    events != [] ==>
      !Breaks(sys, events[0].op, id, p) && NeverBreaks(Next(sys, events[0].op, events[0].luck), events[1..], id, p)
  }

  /** Over every fault-free run, whatever is created, joined, left and reconciled in it, while the
      network is there: a number stays in step with the cached scrape throughout exactly if no
      endpoint joins where the cached scrape has an external port and no scrape demotes it. */
  lemma {:induction false} InStepThroughoutIff(sys: Sys, events: seq<Event>, host: multiset<Rule>, id: Id, p: nat)
    requires FF.Inv(sys, host) && LegalRun(sys, events) && Handlers.FaultFree(events)
    requires InStep(sys.state, id, p) && forall i :: 0 <= i < |events| ==> events[i].op != DeleteNetwork(id)
    ensures AlwaysInStep(sys, events, id, p) <==> NeverBreaks(sys, events, id, p)
    ensures AlwaysInStep(sys, events, id, p) ==> InStep(Run(sys, events).state, id, p)
    decreases |events|
  {
    hide FF.Inv, Legal, Next, InStep, Breaks;
    if events != [] {
      var sys' := Next(sys, events[0].op, NoFault);
      StepInStepIff(sys, events[0].op, host, id, p);
      FF.StepInv(sys, events[0].op, host);
      if InStep(sys'.state, id, p) {
        InStepThroughoutIff(sys', events[1..], host, id, p);
      }
    }
  }

  /** And how a number gets back in step, from whatever state: by a scrape that differs from the
      cached one, exactly if it wants the number, the number is gone, or nothing external is there. */
  lemma RecoversIff(s: State, scraped: R.PortDesc, id: Id, p: nat)
    requires id in s.networks && scraped != Cached(s, id)
    ensures InStep(ReconcileState(s, id, Some(scraped)), id, p) <==>
            R.Wants(SettingsOf(s, id), scraped, p) || R.Gone(Cached(s, id), scraped, p) || !ExternalAt(s, id, p)
  {
    hide ReconcileState;
    OwnPass(s, Some(scraped), id, p);
    hide SettingsOf;
  }

  /** A network starts in step: creation configures no external interface, so on a datapath that has
      none at this number, and with no scrape cached, nothing is called for and nothing is there. */
  lemma CreatedInStep(s: State, id: Id, net: Network, lb: nat, physical: seq<string>, copro: seq<string>, p: nat)
    requires forall x :: x in physical + copro + LinkEnds(s.links, net) ==> x in s.ovs
    requires Lists(physical, net.physical.Keys) && id !in s.cache
    requires var t := Table(s, net.name); p in t && t[p].Physical? ==> t[p].name in net.physical.Keys + net.copro
    ensures InStep(Exec(s, CreateScript(s, id, net, lb, physical, copro), NoFault).state, id, p)
  {
    hide Exec, CreateScript, LinkEnds;
    var s' := Exec(s, CreateScript(s, id, net, lb, physical, copro), NoFault).state;
    C.CreateTheorem(s, id, net, lb, physical, copro);
    N.CreateResult(s, id, net, lb, physical, copro, NoFault);
    CreatedSettings(s, s', id, net, lb);
    CreatedNames(s.ovs, s.links, net, lb, physical, copro, p);
    hide CreateIfaces, N.Filled, Perform, Table;
    assert !ExternalAt(s', id, p);
    hide ExternalAt, SettingsOf;
    StartsInStep(s', id, p);
  }

  lemma StartsInStep(s: State, id: Id, p: nat)
    requires id in s.networks && id !in s.cache && !ExternalAt(s, id, p)
    ensures InStep(s, id, p)
  {
  }

  lemma CreatedSettings(s: State, s': State, id: Id, net: Network, lb: nat)
    requires N.Filled(Perform(s, RecordNetwork(id, net, lb)), s', id, net.name)
    ensures id in s'.networks && s'.networks[id].name == net.name && s'.cache == s.cache
    ensures SettingsOf(s', id).creation == net.physical.Keys + net.copro
  {
    assert Perform(s, RecordNetwork(id, net, lb)) == s.(mirrors := s.mirrors[id := lb], networks := s.networks[id := net]);
    hide Perform, Table;
  }

  /** The physical interfaces that creation configures are those of the ports it was given. */
  lemma CreatedNames(ovs: map<string, Attachment>, links: LinkMode, net: Network, lb: nat, physical: seq<string>, copro: seq<string>, p: nat)
    ensures var t := CreateIfaces(ovs, links, net, lb, physical, copro); p in t && t[p].Physical? ==> t[p].name in physical
  {
    PhysicalNames(ovs, net, physical, p);
    CoproNames(ovs, copro, p);
    hide PhysicalIfaces, CoproIfaces;
  }

  lemma {:induction false} PhysicalNames(ovs: map<string, Attachment>, net: Network, names: seq<string>, p: nat)
    ensures var t := PhysicalIfaces(ovs, net, names); p in t ==> t[p].Physical? && t[p].name in names
  {
    if names != [] {
      PhysicalNames(ovs, net, names[..|names| - 1], p);
    }
  }

  lemma {:induction false} CoproNames(ovs: map<string, Attachment>, names: seq<string>, p: nat)
    ensures var t := CoproIfaces(ovs, names); p in t ==> t[p].Coprocessor?
  {
    if names != [] {
      CoproNames(ovs, names[..|names| - 1], p);
    }
  }

  /** Otherwise nothing brings it back: an external port that gave way to a container and returned
      to its number before the next scrape is never configured again while the scrapes stay equal. */
  lemma EqualScrapesRestoreNothing(s: State, id: Id, p: nat)
    requires id in s.networks && id in s.cache
    ensures EntryAt(ReconcileState(s, id, Some(s.cache[id])), id, p) == EntryAt(s, id, p)
    ensures !InStep(s, id, p) ==> !InStep(ReconcileState(s, id, Some(s.cache[id])), id, p)
  {
    hide ReconcileState;
    OwnPass(s, Some(s.cache[id]), id, p);
    hide SettingsOf;
  }
}
