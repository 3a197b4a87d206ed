/**
 Restoring networks at start-up.  The message that recreates a network carries its ports but
 not its coprocessor ports, while the reconciler goes on counting both as ports named at
 creation: a coprocessor port is configured by neither, and has what the controller still has
 at its number.
 */
module Restore {
  import opened Types
  import opened Ports
  import opened World
  import opened Handlers
  import C = Creation
  import N = NetworkAgreement
  import R = Reconciler

  /** The create handler as restoreNetworks calls it. */
  function RestoreScript(s: State, id: Id, net: Network, lb: nat, physical: seq<string>): seq<Step> {
    CreateScript(s, id, net, lb, physical, [])
  }

  ghost predicate Restorable(s: State, net: Network, physical: seq<string>) {
    net.externals == map[] && forall x :: x in physical + LinkEnds(s.links, net) ==> x in s.ovs
  }

  lemma RestoreResult(s: State, id: Id, net: Network, lb: nat, physical: seq<string>)
    requires Restorable(s, net, physical)
    ensures var r := Exec(s, RestoreScript(s, id, net, lb, physical), NoFault);
            && r.completed && id in r.state.networks
            && r.state.networks[id].name == net.name && r.state.networks[id].copro == net.copro && r.state.cache == s.cache
            && Table(r.state, net.name) == Table(s, net.name) + CreateIfaces(s.ovs, s.links, net, lb, physical, [])
  {
    hide Exec, CreateScript, CreateIfaces, LinkEnds;
    assert physical + [] == physical;
    C.CreateTheorem(s, id, net, lb, physical, []);
    N.CreateResult(s, id, net, lb, physical, [], NoFault);
  }

  /** What the controller has at a coprocessor port's number after a restore: an entry exactly if
      it still had one, or the port is an ordinary one too, or something else creation configures
      has the number; and in the first case alone it is the entry it had. */
  lemma RestoredCoproIff(s: State, id: Id, net: Network, lb: nat, physical: seq<string>, x: string)
    requires Restorable(s, net, physical) && x in net.copro && C.OwnNumber(s.ovs, physical, x)
    ensures var p, t := s.ovs[x].port, Table(s, net.name);
            var t' := Table(Exec(s, RestoreScript(s, id, net, lb, physical), NoFault).state, net.name);
            var overridden := C.Overridden(s.ovs, s.links, net, lb, p);
            && (p in t' <==> p in t || x in physical || overridden)
            && (p in t && x !in physical && !overridden ==> t'[p] == t[p])
            && (p in t' && t'[p] == Coprocessor(x) <==> p in t && t[p] == Coprocessor(x) && x !in physical && !overridden)
  {
    hide Exec, RestoreScript;
    RestoreResult(s, id, net, lb, physical);
    C.PhysicalAt(s.ovs, net, physical, x);
    assert CoproIfaces(s.ovs, []) == map[];
    PlainOverride(s.ovs, s.links, net, lb, physical, s.ovs[x].port);
    hide PhysicalIfaces, CreateIfaces;
  }

  /** What creation configures at a number that it does not configure for a port it was given. */
  lemma PlainOverride(ovs: map<string, Attachment>, links: LinkMode, net: Network, lb: nat, physical: seq<string>, p: nat)
    ensures var t := CreateIfaces(ovs, links, net, lb, physical, []);
            && (p in t <==> p in PhysicalIfaces(ovs, net, physical) || C.Overridden(ovs, links, net, lb, p))
            && (p in t && !C.Overridden(ovs, links, net, lb, p) ==> t[p] == PhysicalIfaces(ovs, net, physical)[p])
            && (p in t && C.Overridden(ovs, links, net, lb, p) ==> !t[p].Coprocessor?)
  {
    assert CoproIfaces(ovs, []) == map[];
    hide PhysicalIfaces;
  }

  /** Whatever scrapes follow, failed ones included, as long as they show the port at its number or
      not at all: it has an interface in the end exactly if the restore left it one and no scrape
      misses it after one showed it.  Nothing ever configures it again. */
  lemma RestoredCoproFateIff(s: State, id: Id, net: Network, lb: nat, physical: seq<string>, x: string, scrapes: seq<Option<R.PortDesc>>)
    requires Restorable(s, net, physical) && x in net.copro && x in s.ovs && !IsContainerPort(x)
    requires id !in s.cache
    requires forall d :: d in scrapes && d.Some? && s.ovs[x].port in d.value ==> d.value[s.ovs[x].port] == x
    ensures var s', p := Exec(s, RestoreScript(s, id, net, lb, physical), NoFault).state, s.ovs[x].port;
            && id in s'.networks
            && (p in R.Run(SettingsOf(s', id), ViewOf(s', id), scrapes).table <==>
                p in Table(s', net.name) && !R.MissedAfterSeen(false, scrapes, p))
  {
    hide Exec, RestoreScript;
    RestoreResult(s, id, net, lb, physical);
    hide CreateIfaces;
    var s', p := Exec(s, RestoreScript(s, id, net, lb, physical), NoFault).state, s.ovs[x].port;
    var c, v := SettingsOf(s', id), ViewOf(s', id);
    assert x in c.creation && R.CachedOr(v.cache) == map[];
    if p in v.table {
      R.CreationPortKeptIff(c, v, scrapes, p, x);
    } else {
      R.IgnoredStaysAbsent(c, v, scrapes, p);
    }
  }

  /** A bridge rebuilt at start-up: the port came back at another number than the controller has.
      Restored, the number it has now is not configured, and the old one still is. */
  lemma RebuiltCoproLost(s: State, id: Id, net: Network, lb: nat, x: string, before: nat)
    requires Restorable(s, net, []) && net.copro == {x} && net.preallocate == 0 && net.mode == Flat && s.links == NoLinks
    requires x in s.ovs && s.ovs[x].port != before && Table(s, net.name) == map[before := Coprocessor(x)]
    ensures var t' := Table(Exec(s, RestoreScript(s, id, net, lb, []), NoFault).state, net.name);
            s.ovs[x].port !in t' && before in t' && t'[before] == Coprocessor(x)
  {
    hide Exec, RestoreScript, Scan, UsedPorts;
    RestoreResult(s, id, net, lb, []);
    PlainOverride(s.ovs, s.links, net, lb, [], s.ovs[x].port);
    PlainOverride(s.ovs, s.links, net, lb, [], before);
    hide CreateIfaces;
  }
}
