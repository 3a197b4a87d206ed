/**
 Patch links between network bridges and the shared mirror, stacking and loopback bridges,
 and the flows of the mirror bridge that tag mirrored traffic.
 */
module Links {
  import opened Types
  import opened Ports
  import opened World
  import Base62
  import PatchNames

  type Ovs = map<string, Attachment>

  /** The driver's options that decide which links exist.  Patch is the naming scheme. */
  datatype Options = Options(
    mirrorBridgeOut: string, stackingInterfaces: seq<string>, stackMirrorInterface: seq<string>,
    mirrorBridge: string, stackDp: string, loopbackBridge: string,
    patch: (string, string) -> string)

  predicate UsingMirrorBridge(o: Options) {
    |o.mirrorBridgeOut| != 0
  }

  predicate UsingStacking(o: Options) {
    !UsingMirrorBridge(o) && |o.stackingInterfaces| >= 1 && |o.stackingInterfaces[0]| != 0
  }

  predicate UsingStackMirroring(o: Options) {
    UsingStacking(o) && |o.stackMirrorInterface| > 1
  }

  // -------------------------------------------------------------------------------------
  // Adding and deleting links

  /** add-port with ofport_request: honoured when the number is free, otherwise the switch
      picks another; a name that exists already is refused, and the refusal is ignored. */
  function PlugIn(ovs: Ovs, name: string, bridge: string, request: nat, other: nat): Ovs {
    if name in ovs then ovs
    else ovs[name := At(bridge, if request in UsedPorts(ovs, bridge) then other else request)]
  }

  function AddPatch(o: Options, ovs: Ovs, bridge: string, peer: string, port: nat, other: nat): Ovs {
    var p := if port == 0 then Scan(UsedPorts(ovs, bridge)) else port;
    var q := Scan(UsedPorts(ovs, peer));
    PlugIn(PlugIn(ovs, o.patch(bridge, peer), bridge, p, other), o.patch(peer, bridge), peer, q, other)
  }

  function DelPatch(o: Options, ovs: Ovs, bridge: string, peer: string): Ovs {
    ovs - {o.patch(bridge, peer)} - {o.patch(peer, bridge)}
  }

  /** Three independent tests when a bridge is initialised ... */
  function InitLinks(o: Options, ovs: Ovs, bridge: string, lbPort: nat, other: nat): Ovs {
    var ovs1 := if UsingMirrorBridge(o) then AddPatch(o, ovs, bridge, o.mirrorBridge, lbPort, other) else ovs;
    var ovs2 := if UsingStacking(o) then AddPatch(o, ovs1, bridge, o.stackDp, 0, other) else ovs1;
    if UsingStackMirroring(o) then AddPatch(o, ovs2, bridge, o.loopbackBridge, lbPort, other) else ovs2
  }

  /** ... and a nested one when it is deleted. */
  function DeleteLinks(o: Options, ovs: Ovs, bridge: string): Ovs {
    var ovs1 := if UsingMirrorBridge(o) then DelPatch(o, ovs, bridge, o.mirrorBridge) else ovs;
    if UsingStacking(o) then
      var ovs2 := DelPatch(o, ovs1, bridge, o.stackDp);
      if UsingStackMirroring(o) then DelPatch(o, ovs2, bridge, o.loopbackBridge) else ovs2
    else ovs1
  }

  /** The shared bridges in force. */
  function Peers(o: Options): set<string> {
    if UsingMirrorBridge(o) then {o.mirrorBridge}
    else if UsingStackMirroring(o) then {o.stackDp, o.loopbackBridge}
    else if UsingStacking(o) then {o.stackDp}
    else {}
  }

  /** Which they are: the mirror bridge if it has an output, otherwise the stacking datapath if there is a
      stacking interface, and the loopback bridge too if a whole mirror interface is given. */
  lemma PeersIff(o: Options)
    requires OptionsOk(o)
    ensures o.mirrorBridge in Peers(o) <==> |o.mirrorBridgeOut| != 0
    ensures o.stackDp in Peers(o) <==>
            |o.mirrorBridgeOut| == 0 && |o.stackingInterfaces| >= 1 && |o.stackingInterfaces[0]| != 0
    ensures o.loopbackBridge in Peers(o) <==>
            && |o.mirrorBridgeOut| == 0 && |o.stackingInterfaces| >= 1 && |o.stackingInterfaces[0]| != 0
            && |o.stackMirrorInterface| >= 2
    ensures Peers(o) <= SharedBridges(o)
  {
  }

  /** The names of both ends of every link a bridge has. */
  ghost predicate IsEnd(o: Options, bridge: string, name: string) {
    exists h :: h in Peers(o) && (name == o.patch(bridge, h) || name == o.patch(h, bridge))
  }

  ghost predicate Distinguishes(o: Options, names: set<string>) {
    forall a, b, c, d :: a in names && b in names && c in names && d in names && o.patch(a, b) == o.patch(c, d) ==> a == c && b == d
  }

  /** Hashed names tell links apart when the hashes differ and encode to one length. */
  lemma HashedNamesDistinguish(o: Options, hash: string -> nat, names: set<string>)
    requires PatchNames.IsHash(hash)
    requires forall a, b :: a in names && b in names ==> PatchNames.PatchName(hash, a, b) == Some(o.patch(a, b))
    requires forall a, b :: a in names && b in names && a != b ==> hash(a) != hash(b)
    requires forall a, b :: a in names && b in names ==> |PatchNames.PatchStr(hash, a)| == |PatchNames.PatchStr(hash, b)|
    ensures Distinguishes(o, names)
  {
    forall a, b, c, d | a in names && b in names && c in names && d in names && o.patch(a, b) == o.patch(c, d)
      ensures a == c && b == d
    {
      var n := |PatchNames.PatchStr(hash, a)|;
      SplitName(o, hash, a, b, n);
      SplitName(o, hash, c, d, n);
      assert hash(a) == hash(c) && hash(b) == hash(d);
    }
  }

  lemma SplitName(o: Options, hash: string -> nat, a: string, b: string, n: nat)
    requires PatchNames.IsHash(hash) && PatchNames.PatchName(hash, a, b) == Some(o.patch(a, b))
    requires |PatchNames.PatchStr(hash, a)| == n
    ensures |o.patch(a, b)| >= 3 + n
    ensures Base62.Decode(o.patch(a, b)[3..3 + n]) == hash(a) && Base62.Decode(o.patch(a, b)[3 + n..]) == hash(b)
  {
    PatchNames.PatchNameFits(hash, a, b);
    Base62.EncodeTheorem(hash(a));
    Base62.EncodeTheorem(hash(b));
    var x, y := PatchNames.PatchStr(hash, a), PatchNames.PatchStr(hash, b);
    assert (PATCH_PREFIX + x + y)[3..3 + n] == x && (PATCH_PREFIX + x + y)[3 + n..] == y;
  }

  /** One link added: two new entries, at free numbers, and nothing else. */
  ghost predicate AddedLink(o: Options, ovs: Ovs, ovs': Ovs, bridge: string, peer: string) {
    && o.patch(bridge, peer) in ovs' && ovs'[o.patch(bridge, peer)].bridge == bridge
    && o.patch(peer, bridge) in ovs' && ovs'[o.patch(peer, bridge)].bridge == peer
    && (forall name :: name != o.patch(bridge, peer) && name != o.patch(peer, bridge) ==> (name in ovs' <==> name in ovs))
    && (forall name :: name in ovs ==> name in ovs' && ovs'[name] == ovs[name])
    && Numbered(ovs')
  }

  /** Which numbers its two ends get: the other end the least free one there, this end the number asked
      for if that is free, and the least free one if none is asked for. */
  ghost predicate NumberedLink(o: Options, ovs: Ovs, ovs': Ovs, bridge: string, peer: string, port: nat) {
    && o.patch(bridge, peer) in ovs' && o.patch(peer, bridge) in ovs'
    && IsLeastFree(UsedPorts(ovs, peer), ovs'[o.patch(peer, bridge)].port)
    && (port == 0 ==> IsLeastFree(UsedPorts(ovs, bridge), ovs'[o.patch(bridge, peer)].port))
    && (ovs'[o.patch(bridge, peer)].port == port <==> port != 0 && port !in UsedPorts(ovs, bridge))
  }

  lemma PlugInNumbered(ovs: Ovs, name: string, bridge: string, request: nat, other: nat)
    requires Numbered(ovs) && name !in ovs && request >= 1
    requires request in UsedPorts(ovs, bridge) ==> other >= 1 && other !in UsedPorts(ovs, bridge)
    ensures Numbered(PlugIn(ovs, name, bridge, request, other))
  {
    var ovs' := PlugIn(ovs, name, bridge, request, other);
    forall a, b | a in ovs' && b in ovs' && ovs'[a] == ovs'[b] ensures a == b {
      assert a in ovs && ovs[a].bridge == bridge ==> ovs[a].port in UsedPorts(ovs, bridge);
      assert b in ovs && ovs[b].bridge == bridge ==> ovs[b].port in UsedPorts(ovs, bridge);
    }
  }

  lemma FreeScan(ovs: Ovs, bridge: string)
    requires Numbered(ovs)
    ensures IsLeastFree(UsedPorts(ovs, bridge), Scan(UsedPorts(ovs, bridge)))
  {
    assert 0 !in UsedPorts(ovs, bridge);
    ScanIsLeastFreeIff(UsedPorts(ovs, bridge));
  }

  lemma UsedElsewhere(ovs: Ovs, name: string, bridge: string, request: nat, other: nat, peer: string)
    requires name !in ovs && peer != bridge
    ensures UsedPorts(PlugIn(ovs, name, bridge, request, other), peer) == UsedPorts(ovs, peer)
  {
    var ovs' := PlugIn(ovs, name, bridge, request, other);
    forall p ensures p in UsedPorts(ovs', peer) <==> p in UsedPorts(ovs, peer) {
      if p in UsedPorts(ovs, peer) {
        var x :| x in ovs && ovs[x].bridge == peer && ovs[x].port == p;
        assert x in ovs' && ovs'[x] == ovs[x];
      }
    }
  }

  lemma AddPatchEffect(o: Options, ovs: Ovs, bridge: string, peer: string, port: nat, other: nat)
    requires Numbered(ovs) && bridge != peer && o.patch(bridge, peer) != o.patch(peer, bridge)
    requires o.patch(bridge, peer) !in ovs && o.patch(peer, bridge) !in ovs
    requires other >= 1 && other !in UsedPorts(ovs, bridge)
    ensures AddedLink(o, ovs, AddPatch(o, ovs, bridge, peer, port, other), bridge, peer)
    ensures NumberedLink(o, ovs, AddPatch(o, ovs, bridge, peer, port, other), bridge, peer, port)
  {
    var near, far := o.patch(bridge, peer), o.patch(peer, bridge);
    var p := if port == 0 then Scan(UsedPorts(ovs, bridge)) else port;
    var q := Scan(UsedPorts(ovs, peer));
    FreeScan(ovs, bridge);
    FreeScan(ovs, peer);
    PlugInNumbered(ovs, near, bridge, p, other);
    var ovs1 := PlugIn(ovs, near, bridge, p, other);
    UsedElsewhere(ovs, near, bridge, p, other, peer);
    PlugInNumbered(ovs1, far, peer, q, other);
  }

  /** The same operations as the driver performs them, on the switch's own table. */
  class LinkTable {
    const o: Options
    var ovs: Ovs
    var flows: map<nat, nat>

    constructor (o: Options, ovs: Ovs)
      ensures this.o == o && this.ovs == ovs && flows == map[]
    {
      this.o, this.ovs, flows := o, ovs, map[];
    }

    method AddPortRequest(bridge: string, name: string, request: nat, other: nat)
      modifies this`ovs
      ensures ovs == PlugIn(old(ovs), name, bridge, request, other)
    {
      if name in ovs {
        return;
      }
      var port := request;
      if port in UsedPorts(ovs, bridge) {
        port := other;
      }
      ovs := ovs[name := At(bridge, port)];
    }

    /** Both numbers are chosen before either end is plugged in. */
    method MustAddPatchPort(bridge: string, peer: string, port: nat, other: nat)
      modifies this`ovs
      ensures ovs == AddPatch(o, old(ovs), bridge, peer, port, other)
    {
      var near := port;
      if near == 0 {
        near := Scan(UsedPorts(ovs, bridge));
      }
      var far := Scan(UsedPorts(ovs, peer));
      AddPortRequest(bridge, o.patch(bridge, peer), near, other);
      AddPortRequest(peer, o.patch(peer, bridge), far, other);
    }

    method MustDeletePatchPort(bridge: string, peer: string)
      modifies this`ovs
      ensures ovs == DelPatch(o, old(ovs), bridge, peer)
    {
      ovs := ovs - {o.patch(bridge, peer)};
      ovs := ovs - {o.patch(peer, bridge)};
    }

    method InitBridge(bridge: string, vlan: nat, lbPort: nat, other: nat)
      modifies this`ovs, this`flows
      ensures ovs == InitLinks(o, old(ovs), bridge, lbPort, other)
      ensures UsingMirrorBridge(o) && o.patch(o.mirrorBridge, bridge) in ovs ==>
                flows == old(flows)[ovs[o.patch(o.mirrorBridge, bridge)].port := vlan]
      ensures !UsingMirrorBridge(o) ==> flows == old(flows)
    {
      if UsingMirrorBridge(o) {
        MustAddPatchPort(bridge, o.mirrorBridge, lbPort, other);
        var end := o.patch(o.mirrorBridge, bridge);
        if end in ovs {
          flows := flows[ovs[end].port := vlan];
        }
      }
      if UsingStacking(o) {
        MustAddPatchPort(bridge, o.stackDp, 0, other);
      }
      if UsingStackMirroring(o) {
        MustAddPatchPort(bridge, o.loopbackBridge, lbPort, other);
      }
    }

    method MustDeleteBridgeAndPorts(bridge: string)
      modifies this`ovs
      ensures ovs == WithoutBridge(DeleteLinks(o, old(ovs), bridge), bridge)
    {
      if UsingMirrorBridge(o) {
        MustDeletePatchPort(bridge, o.mirrorBridge);
      }
      if UsingStacking(o) {
        MustDeletePatchPort(bridge, o.stackDp);
        if UsingStackMirroring(o) {
          MustDeletePatchPort(bridge, o.loopbackBridge);
        }
      }
      ovs := WithoutBridge(ovs, bridge);
    }
  }

  // -------------------------------------------------------------------------------------
  // The machine

  /** A network that has been initialised: the number it wants for its mirror link, and those that were
      taken on its bridge before its links were added. */
  datatype Live = Live(bridge: string, vlan: nat, lbPort: nat, taken: set<nat>)

  /** Interfaces, priority-2 flows of the mirror bridge by input port, and live networks. */
  datatype Fabric = Fabric(ovs: Ovs, flows: map<nat, nat>, live: map<Id, Live>)

  datatype Op =
    | Init(id: Id, bridge: string, vlan: nat, lbPort: nat, other: nat, attached: map<string, nat>)
    | Delete(id: Id)
    | Plug(name: string, bridge: string, port: nat)
    | Unplug(name: string)

  function Attach(ovs: Ovs, bridge: string, attached: map<string, nat>): Ovs {
    ovs + map name | name in attached :: At(bridge, attached[name])
  }

  /** A flow with the same match and priority replaces the old one. */
  function TagFlow(o: Options, ovs: Ovs, flows: map<nat, nat>, bridge: string, vlan: nat): map<nat, nat> {
    var end := o.patch(o.mirrorBridge, bridge);
    if UsingMirrorBridge(o) && end in ovs then flows[ovs[end].port := vlan] else flows
  }

  function Next(o: Options, s: Fabric, op: Op): Fabric {
    match op
    case Init(id, b, vlan, lb, other, attached) =>
      var before := Attach(s.ovs, b, attached);
      var ovs' := InitLinks(o, before, b, lb, other);
      Fabric(ovs', TagFlow(o, ovs', s.flows, b, vlan), s.live[id := Live(b, vlan, lb, UsedPorts(before, b))])
    case Delete(id) =>
      if id !in s.live then s
      else s.(ovs := WithoutBridge(DeleteLinks(o, s.ovs, s.live[id].bridge), s.live[id].bridge), live := s.live - {id})
    case Plug(name, b, p) => s.(ovs := s.ovs[name := At(b, p)])
    case Unplug(name) => s.(ovs := s.ovs - {name})
  }

  ghost function SharedBridges(o: Options): set<string> {
    {o.mirrorBridge, o.stackDp, o.loopbackBridge}
  }

  ghost function InPlay(o: Options, live: map<Id, Live>): set<string> {
    SharedBridges(o) + set n | n in live :: live[n].bridge
  }

  ghost predicate OptionsOk(o: Options) {
    o.mirrorBridge != o.stackDp && o.mirrorBridge != o.loopbackBridge && o.stackDp != o.loopbackBridge
  }

  ghost predicate Legal(o: Options, s: Fabric, op: Op) {
    match op
    case Init(id, b, _, lb, other, attached) =>
      && id !in s.live && b !in InPlay(o, s.live)
      && Distinguishes(o, InPlay(o, s.live) + {b})
      && (forall name :: name in s.ovs ==> s.ovs[name].bridge != b)
      && (forall name :: name in attached ==> name !in s.ovs && attached[name] >= 1)
      && (forall x, y :: x in attached && y in attached && attached[x] == attached[y] ==> x == y)
      && (forall name :: IsEnd(o, b, name) ==> name !in s.ovs && name !in attached)
      && (forall n, name :: n in s.live && IsEnd(o, s.live[n].bridge, name) ==> name !in attached)
      && other >= 1 && other !in Used(o, Attach(s.ovs, b, attached), b, other)
    case Delete(id) => id in s.live
    case Plug(name, b, p) =>
      && b !in SharedBridges(o) && name !in s.ovs && p >= 1 && p !in UsedPorts(s.ovs, b)
    case Unplug(name) =>
      && (name in s.ovs ==> s.ovs[name].bridge !in SharedBridges(o))
      && (forall n :: n in s.live ==> !IsEnd(o, s.live[n].bridge, name))
  }

  /** Numbers taken on the new bridge when the link with the requested number is added. */
  ghost function Used(o: Options, ovs: Ovs, bridge: string, other: nat): set<nat> {
    UsedPorts(ovs, bridge) + if UsingStacking(o) then UsedPorts(AddPatch(o, ovs, bridge, o.stackDp, 0, other), bridge) else {}
  }

  /** A live network has both ends of each of its links. */
  ghost predicate Linked(o: Options, ovs: Ovs, bridge: string) {
    forall h :: h in Peers(o) ==>
      && o.patch(bridge, h) in ovs && ovs[o.patch(bridge, h)].bridge == bridge
      && o.patch(h, bridge) in ovs && ovs[o.patch(h, bridge)].bridge == h
  }

  ghost predicate OwnsEnd(o: Options, s: Fabric, n: Id, h: string, name: string) {
    n in s.live && h in Peers(o) && name == o.patch(h, s.live[n].bridge)
  }

  /** Exactly one link per live network and shared bridge in force, beside the interfaces the
      shared bridges had to begin with, all at distinct numbers. */
  ghost predicate Conserved(o: Options, s: Fabric, base: Ovs) {
    Numbered(s.ovs) && AllLinked(o, s) && EndsOwned(o, s, base) && BaseKept(o, s, base)
  }

  ghost predicate AllLinked(o: Options, s: Fabric) {
    forall n :: n in s.live ==> Linked(o, s.ovs, s.live[n].bridge)
  }

  ghost predicate EndsOwned(o: Options, s: Fabric, base: Ovs) {
    forall name :: name in s.ovs && s.ovs[name].bridge in SharedBridges(o) ==> Accounted(o, s, base, name)
  }

  ghost predicate Accounted(o: Options, s: Fabric, base: Ovs, name: string)
    requires name in s.ovs
  {
    (name in base && s.ovs[name] == base[name]) || exists n, h :: OwnsEnd(o, s, n, h, name)
  }

  ghost predicate BaseKept(o: Options, s: Fabric, base: Ovs) {
    forall name :: name in base && base[name].bridge in SharedBridges(o) ==> name in s.ovs && s.ovs[name] == base[name]
  }

  /** The numbers of a live network's own ends: that of the mirror link is the one it wants exactly if
      that was free, that of the stacking link is the least that was free, and that of the loopback
      link is the one it wants exactly if that was free and the stacking link did not take it. */
  ghost predicate EndNumbers(o: Options, ovs: Ovs, net: Live) {
    && (|o.mirrorBridgeOut| != 0 ==>
          var near := o.patch(net.bridge, o.mirrorBridge);
          near in ovs && (ovs[near].port == net.lbPort <==> net.lbPort != 0 && net.lbPort !in net.taken))
    && (|o.mirrorBridgeOut| == 0 && |o.stackingInterfaces| >= 1 && |o.stackingInterfaces[0]| != 0 ==>
          var near := o.patch(net.bridge, o.stackDp);
          && near in ovs && IsLeastFree(net.taken, ovs[near].port)
          && (|o.stackMirrorInterface| >= 2 ==>
                var loop := o.patch(net.bridge, o.loopbackBridge);
                && loop in ovs
                && (ovs[loop].port == net.lbPort <==>
                      net.lbPort != 0 && net.lbPort !in net.taken && net.lbPort != ovs[near].port)))
  }

  ghost predicate AllEndNumbers(o: Options, s: Fabric) {
    forall n :: n in s.live ==> EndNumbers(o, s.ovs, s.live[n])
  }

  ghost predicate NamesOk(o: Options, s: Fabric, base: Ovs) {
    && Distinguishes(o, InPlay(o, s.live))
    && (forall n :: n in s.live ==> s.live[n].bridge !in SharedBridges(o))
    && (forall n, m :: n in s.live && m in s.live && n != m ==> s.live[n].bridge != s.live[m].bridge)
    && (forall n, name :: n in s.live && IsEnd(o, s.live[n].bridge, name) ==> name !in base || base[name].bridge !in SharedBridges(o))
  }

  /** The flow for each live network's mirror port tags with that network's own VLAN. */
  ghost predicate Tagged(o: Options, s: Fabric) {
    UsingMirrorBridge(o) ==>
      forall n :: n in s.live ==>
        var end := o.patch(o.mirrorBridge, s.live[n].bridge);
        end in s.ovs && s.ovs[end].port in s.flows && s.flows[s.ovs[end].port] == s.live[n].vlan
  }

  ghost predicate Inv(o: Options, s: Fabric, base: Ovs) {
    OptionsOk(o) && NamesOk(o, s, base) && Conserved(o, s, base) && Tagged(o, s) && AllEndNumbers(o, s)
  }

  // -------------------------------------------------------------------------------------
  // Initialising a bridge

  /** Everything a new bridge gets: all its ends, and otherwise nothing changes. */
  ghost predicate AddedLinks(o: Options, ovs: Ovs, ovs': Ovs, bridge: string) {
    && Linked(o, ovs', bridge)
    && (forall name :: name in ovs' <==> name in ovs || IsEnd(o, bridge, name))
    && (forall name :: name in ovs ==> ovs'[name] == ovs[name])
    && Numbered(ovs')
  }

  /** The other ends get the least free numbers of the shared bridges. */
  ghost predicate FarNumbers(o: Options, ovs: Ovs, ovs': Ovs, bridge: string) {
    forall h :: h in Peers(o) ==> o.patch(h, bridge) in ovs' && IsLeastFree(UsedPorts(ovs, h), ovs'[o.patch(h, bridge)].port)
  }

  lemma InitLinksEffect(o: Options, ovs: Ovs, bridge: string, vlan: nat, lb: nat, other: nat)
    requires OptionsOk(o) && Numbered(ovs) && bridge !in SharedBridges(o)
    requires Distinguishes(o, SharedBridges(o) + {bridge})
    requires forall name :: IsEnd(o, bridge, name) ==> name !in ovs
    requires other >= 1 && other !in Used(o, ovs, bridge, other)
    ensures AddedLinks(o, ovs, InitLinks(o, ovs, bridge, lb, other), bridge)
    ensures EndNumbers(o, InitLinks(o, ovs, bridge, lb, other), Live(bridge, vlan, lb, UsedPorts(ovs, bridge)))
    ensures FarNumbers(o, ovs, InitLinks(o, ovs, bridge, lb, other), bridge)
  {
    var all := SharedBridges(o) + {bridge};
    assert bridge in all && o.mirrorBridge in all && o.stackDp in all && o.loopbackBridge in all;
    forall h | h in Peers(o) ensures o.patch(bridge, h) !in ovs && o.patch(h, bridge) !in ovs {
      assert IsEnd(o, bridge, o.patch(bridge, h)) && IsEnd(o, bridge, o.patch(h, bridge));
    }
    if UsingMirrorBridge(o) {
      OneLink(o, ovs, bridge, o.mirrorBridge, lb, other);
    } else if UsingStackMirroring(o) {
      TwoLinks(o, ovs, bridge, vlan, lb, other);
    } else if UsingStacking(o) {
      OneLink(o, ovs, bridge, o.stackDp, 0, other);
    }
  }

  lemma OneLink(o: Options, ovs: Ovs, bridge: string, h: string, port: nat, other: nat)
    requires Numbered(ovs) && Peers(o) == {h} && bridge != h && Distinguishes(o, {bridge, h})
    requires o.patch(bridge, h) !in ovs && o.patch(h, bridge) !in ovs
    requires other >= 1 && other !in UsedPorts(ovs, bridge)
    ensures AddedLinks(o, ovs, AddPatch(o, ovs, bridge, h, port, other), bridge)
    ensures NumberedLink(o, ovs, AddPatch(o, ovs, bridge, h, port, other), bridge, h, port)
  {
    var names := {bridge, h};
    assert bridge in names && h in names;
    assert o.patch(bridge, h) != o.patch(h, bridge);
    AddPatchEffect(o, ovs, bridge, h, port, other);
    hide AddPatch, Numbered;
    var ovs' := AddPatch(o, ovs, bridge, h, port, other);
    forall name ensures IsEnd(o, bridge, name) <==> name == o.patch(bridge, h) || name == o.patch(h, bridge) {
      assert h in Peers(o);
    }
  }

  lemma TwoLinks(o: Options, ovs: Ovs, bridge: string, vlan: nat, lb: nat, other: nat)
    requires OptionsOk(o) && Numbered(ovs) && UsingStackMirroring(o) && bridge !in SharedBridges(o)
    requires Distinguishes(o, SharedBridges(o) + {bridge})
    requires forall h :: h in Peers(o) ==> o.patch(bridge, h) !in ovs && o.patch(h, bridge) !in ovs
    requires other >= 1 && other !in Used(o, ovs, bridge, other)
    ensures AddedLinks(o, ovs, InitLinks(o, ovs, bridge, lb, other), bridge)
    ensures EndNumbers(o, InitLinks(o, ovs, bridge, lb, other), Live(bridge, vlan, lb, UsedPorts(ovs, bridge)))
    ensures FarNumbers(o, ovs, InitLinks(o, ovs, bridge, lb, other), bridge)
  {
    var all := SharedBridges(o) + {bridge};
    var st, lo := o.stackDp, o.loopbackBridge;
    assert bridge in all && st in all && lo in all;
    assert o.patch(bridge, st) != o.patch(st, bridge) && o.patch(bridge, lo) != o.patch(lo, bridge);
    assert o.patch(bridge, st) != o.patch(bridge, lo) && o.patch(bridge, st) != o.patch(lo, bridge);
    assert o.patch(st, bridge) != o.patch(bridge, lo) && o.patch(st, bridge) != o.patch(lo, bridge);
    assert st in Peers(o) && lo in Peers(o);
    var ovs1 := AddPatch(o, ovs, bridge, st, 0, other);
    AddPatchEffect(o, ovs, bridge, st, 0, other);
    AddPatchEffect(o, ovs1, bridge, lo, lb, other);
    var ovs2 := AddPatch(o, ovs1, bridge, lo, lb, other);
    assert InitLinks(o, ovs, bridge, lb, other) == ovs2;
    hide AddPatch, Numbered, InitLinks, Distinguishes;
    ComposeLinks(o, ovs, ovs1, ovs2, bridge);
    ComposeNumbers(o, ovs, ovs1, ovs2, bridge, vlan, lb);
  }

  /** The second link finds one more number taken on this bridge, and none on its own shared one. */
  lemma ComposeNumbers(o: Options, ovs: Ovs, ovs1: Ovs, ovs2: Ovs, bridge: string, vlan: nat, lb: nat)
    requires OptionsOk(o) && UsingStackMirroring(o) && bridge !in SharedBridges(o)
    requires o.patch(bridge, o.stackDp) !in ovs && o.patch(o.stackDp, bridge) !in ovs
    requires AddedLink(o, ovs, ovs1, bridge, o.stackDp) && AddedLink(o, ovs1, ovs2, bridge, o.loopbackBridge)
    requires NumberedLink(o, ovs, ovs1, bridge, o.stackDp, 0) && NumberedLink(o, ovs1, ovs2, bridge, o.loopbackBridge, lb)
    ensures EndNumbers(o, ovs2, Live(bridge, vlan, lb, UsedPorts(ovs, bridge)))
    ensures FarNumbers(o, ovs, ovs2, bridge)
  {
    var near, far := o.patch(bridge, o.stackDp), o.patch(o.stackDp, bridge);
    UsedAfter(ovs, ovs1, near, far, bridge, o.loopbackBridge);
    hide IsLeastFree, UsedPorts, Numbered;
    assert Peers(o) == {o.stackDp, o.loopbackBridge};
  }

  lemma UsedAfter(ovs: Ovs, ovs': Ovs, near: string, far: string, bridge: string, third: string)
    requires near in ovs' && far in ovs' && near !in ovs && far !in ovs
    requires ovs'[near].bridge == bridge && ovs'[far].bridge != bridge && ovs'[far].bridge != third && bridge != third
    requires forall name :: name != near && name != far ==> (name in ovs' <==> name in ovs)
    requires forall name :: name in ovs ==> name in ovs' && ovs'[name] == ovs[name]
    ensures UsedPorts(ovs', bridge) == UsedPorts(ovs, bridge) + {ovs'[near].port}
    ensures UsedPorts(ovs', third) == UsedPorts(ovs, third)
  {
    forall p ensures p in UsedPorts(ovs', bridge) <==> p in UsedPorts(ovs, bridge) + {ovs'[near].port} {
      if p in UsedPorts(ovs, bridge) {
        var x :| x in ovs && ovs[x].bridge == bridge && ovs[x].port == p;
        assert x in ovs' && ovs'[x] == ovs[x];
      }
    }
    forall p ensures p in UsedPorts(ovs', third) <==> p in UsedPorts(ovs, third) {
      if p in UsedPorts(ovs, third) {
        var x :| x in ovs && ovs[x].bridge == third && ovs[x].port == p;
        assert x in ovs' && ovs'[x] == ovs[x];
      }
    }
  }

  lemma ComposeLinks(o: Options, ovs: Ovs, ovs1: Ovs, ovs2: Ovs, bridge: string)
    requires UsingStackMirroring(o)
    requires AddedLink(o, ovs, ovs1, bridge, o.stackDp) && AddedLink(o, ovs1, ovs2, bridge, o.loopbackBridge)
    ensures AddedLinks(o, ovs, ovs2, bridge)
  {
    hide Numbered;
    var st, lo := o.stackDp, o.loopbackBridge;
    assert Peers(o) == {st, lo};
    forall name ensures IsEnd(o, bridge, name) <==>
        name == o.patch(bridge, st) || name == o.patch(st, bridge) || name == o.patch(bridge, lo) || name == o.patch(lo, bridge) {
      assert st in Peers(o) && lo in Peers(o);
    }
    hide IsEnd;
  }

  /** Initialising a bridge again, as rebuilding one without an address does, adds nothing: both ends of every
      link are there, the switch refuses them, and they keep their numbers whatever number is wanted now. */
  lemma InitLinksAgain(o: Options, ovs: Ovs, bridge: string, lb: nat, other: nat)
    requires Linked(o, ovs, bridge)
    ensures InitLinks(o, ovs, bridge, lb, other) == ovs
  {
    assert UsingMirrorBridge(o) ==> o.mirrorBridge in Peers(o);
    assert UsingStacking(o) ==> o.stackDp in Peers(o);
    assert UsingStackMirroring(o) ==> o.loopbackBridge in Peers(o);
    hide UsedPorts;
  }

  lemma AttachNumbered(ovs: Ovs, bridge: string, attached: map<string, nat>)
    requires Numbered(ovs)
    requires forall name :: name in ovs ==> ovs[name].bridge != bridge
    requires forall name :: name in attached ==> name !in ovs && attached[name] >= 1
    requires forall x, y :: x in attached && y in attached && attached[x] == attached[y] ==> x == y
    ensures Numbered(Attach(ovs, bridge, attached))
  {
  }

  lemma FewerNames(o: Options, small: set<string>, big: set<string>)
    requires Distinguishes(o, big) && small <= big
    ensures Distinguishes(o, small)
  {
  }

  ghost predicate Inits(o: Options, s: Fabric, s': Fabric, op: Op)
    requires op.Init?
  {
    var net := NewNetwork(s, op);
    && AddedLinks(o, Attach(s.ovs, op.bridge, op.attached), s'.ovs, op.bridge)
    && s'.flows == TagFlow(o, s'.ovs, s.flows, op.bridge, op.vlan)
    && s'.live == s.live[op.id := net] && EndNumbers(o, s'.ovs, net)
  }

  ghost function NewNetwork(s: Fabric, op: Op): Live
    requires op.Init?
  {
    Live(op.bridge, op.vlan, op.lbPort, UsedPorts(Attach(s.ovs, op.bridge, op.attached), op.bridge))
  }

  /** What the new bridge's links find when its own ports are plugged in. */
  lemma InitReady(o: Options, s: Fabric, op: Op)
    requires op.Init? && Legal(o, s, op) && Numbered(s.ovs)
    ensures var ovs := Attach(s.ovs, op.bridge, op.attached);
            && Numbered(ovs) && op.bridge !in SharedBridges(o) && Distinguishes(o, SharedBridges(o) + {op.bridge})
            && (forall name :: IsEnd(o, op.bridge, name) ==> name !in ovs)
            && op.other >= 1 && op.other !in Used(o, ovs, op.bridge, op.other)
  {
    AttachNumbered(s.ovs, op.bridge, op.attached);
    FewerNames(o, SharedBridges(o) + {op.bridge}, InPlay(o, s.live) + {op.bridge});
    hide Distinguishes, Numbered, Used, IsEnd;
  }

  lemma InitShape(o: Options, s: Fabric, op: Op, base: Ovs)
    requires Inv(o, s, base) && Legal(o, s, op) && op.Init?
    ensures Inits(o, s, Next(o, s, op), op)
  {
    InitReady(o, s, op);
    hide Legal, Distinguishes, Numbered, Used, IsEnd, AddedLinks, EndNumbers, FarNumbers, NamesOk, Conserved, Tagged, AllEndNumbers;
    InitLinksEffect(o, Attach(s.ovs, op.bridge, op.attached), op.bridge, op.vlan, op.lbPort, op.other);
    hide InitLinks, Attach, UsedPorts, TagFlow;
  }

  lemma InitInv(o: Options, s: Fabric, op: Op, base: Ovs)
    requires Inv(o, s, base) && Legal(o, s, op) && op.Init?
    ensures Inv(o, Next(o, s, op), base)
  {
    var s' := Next(o, s, op);
    InitShape(o, s, op, base);
    hide Next, Numbered;
    InitNames(o, s, s', op, base);
    InitConserved(o, s, s', op, base);
    InitTagged(o, s, s', op, base);
    InitNumbers(o, s, s', op);
  }

  lemma InitNumbers(o: Options, s: Fabric, s': Fabric, op: Op)
    requires OptionsOk(o) && op.Init? && Legal(o, s, op) && Inits(o, s, s', op) && AllEndNumbers(o, s)
    ensures AllEndNumbers(o, s')
  {
    hide IsEnd, Distinguishes, Linked, Numbered, IsLeastFree, Used, EndNumbers, NewNetwork;
    assert forall name :: name in s.ovs ==> name in s'.ovs && s'.ovs[name] == s.ovs[name];
    forall n | n in s'.live ensures EndNumbers(o, s'.ovs, s'.live[n]) {
      if n != op.id {
        assert EndNumbers(o, s.ovs, s.live[n]);
        NumbersStay(o, s.ovs, s'.ovs, s.live[n]);
      }
    }
  }

  /** A network's numbers stay as long as its own ends do. */
  lemma NumbersStay(o: Options, ovs: Ovs, ovs': Ovs, net: Live)
    requires OptionsOk(o) && EndNumbers(o, ovs, net)
    requires forall h :: h in Peers(o) && o.patch(net.bridge, h) in ovs ==>
               o.patch(net.bridge, h) in ovs' && ovs'[o.patch(net.bridge, h)] == ovs[o.patch(net.bridge, h)]
    ensures EndNumbers(o, ovs', net)
  {
    PeersIff(o);
    hide IsLeastFree, Peers, SharedBridges;
  }

  lemma InitNames(o: Options, s: Fabric, s': Fabric, op: Op, base: Ovs)
    requires NamesOk(o, s, base) && Conserved(o, s, base) && Legal(o, s, op) && op.Init? && s'.live == s.live[op.id := NewNetwork(s, op)]
    ensures NamesOk(o, s', base)
  {
    hide Numbered, Linked, IsEnd;
    FewerNames(o, InPlay(o, s'.live), InPlay(o, s.live) + {op.bridge});
    hide Distinguishes;
  }

  lemma InitConserved(o: Options, s: Fabric, s': Fabric, op: Op, base: Ovs)
    requires Inv(o, s, base) && Legal(o, s, op) && op.Init?
    requires Inits(o, s, s', op)
    ensures Conserved(o, s', base)
  {
    hide Distinguishes, Numbered, TagFlow, Tagged, Used, Linked, AllLinked, EndsOwned, NamesOk, IsEnd;
    var b, ovs := op.bridge, Attach(s.ovs, op.bridge, op.attached);
    assert forall name :: name in s.ovs ==> name in s'.ovs && s'.ovs[name] == s.ovs[name];
    InitLinked(o, s, s', op.id, NewNetwork(s, op));
    InitOwned(o, s, s', op, base);
  }

  lemma InitLinked(o: Options, s: Fabric, s': Fabric, id: Id, net: Live)
    requires AllLinked(o, s) && s'.live == s.live[id := net] && Linked(o, s'.ovs, net.bridge)
    requires forall name :: name in s.ovs ==> name in s'.ovs && s'.ovs[name] == s.ovs[name]
    ensures AllLinked(o, s')
  {
    forall n | n in s'.live ensures Linked(o, s'.ovs, s'.live[n].bridge) {
      if n != id {
        assert Linked(o, s.ovs, s.live[n].bridge);
      }
    }
  }

  lemma InitOwned(o: Options, s: Fabric, s': Fabric, op: Op, base: Ovs)
    requires EndsOwned(o, s, base) && op.Init? && op.id !in s.live && op.bridge !in SharedBridges(o)
    requires Inits(o, s, s', op)
    requires forall name :: name in op.attached ==> name !in s.ovs
    ensures EndsOwned(o, s', base)
  {
    hide Numbered, TagFlow;
    var b := op.bridge;
    forall name | name in s'.ovs && s'.ovs[name].bridge in SharedBridges(o) ensures Accounted(o, s', base, name) {
      if name in s.ovs {
        assert Attach(s.ovs, b, op.attached)[name] == s.ovs[name];
        AccountedStays(o, s, s', base, name);
      } else if IsEnd(o, b, name) {
        var h :| h in Peers(o) && (name == o.patch(b, h) || name == o.patch(h, b));
        assert OwnsEnd(o, s', op.id, h, name);
      }
    }
  }

  lemma AccountedStays(o: Options, s: Fabric, s': Fabric, base: Ovs, name: string)
    requires name in s.ovs && Accounted(o, s, base, name) && name in s'.ovs && s'.ovs[name] == s.ovs[name]
    requires forall n :: n in s.live ==> n in s'.live && s'.live[n].bridge == s.live[n].bridge
    ensures Accounted(o, s', base, name)
  {
    if !(name in base && s.ovs[name] == base[name]) {
      var n, h :| OwnsEnd(o, s, n, h, name);
      assert OwnsEnd(o, s', n, h, name);
    }
  }

  lemma InitTagged(o: Options, s: Fabric, s': Fabric, op: Op, base: Ovs)
    requires Inv(o, s, base) && Legal(o, s, op) && op.Init?
    requires Inits(o, s, s', op)
    ensures Tagged(o, s')
  {
    if UsingMirrorBridge(o) {
      var m, b := o.mirrorBridge, op.bridge;
      assert m in Peers(o);
      assert IsEnd(o, b, o.patch(m, b));
      hide Used, InPlay, Distinguishes, Numbered, IsEnd, EndsOwned, BaseKept, NamesOk;
      forall n | n in s.live ensures var e := o.patch(m, s.live[n].bridge); e in s.ovs && s.ovs[e].bridge == m {
        assert Linked(o, s.ovs, s.live[n].bridge);
      }
      assert forall name :: name in s.ovs ==> name in s'.ovs && s'.ovs[name] == s.ovs[name];
      TagsApart(o, s, s', op.id, NewNetwork(s, op));
    }
  }

  /** The new flow is keyed by a number no other network's link end has. */
  lemma TagsApart(o: Options, s: Fabric, s': Fabric, id: Id, net: Live)
    requires UsingMirrorBridge(o) && Tagged(o, s) && Numbered(s'.ovs) && id !in s.live
    requires var end := o.patch(o.mirrorBridge, net.bridge); end !in s.ovs && end in s'.ovs && s'.ovs[end].bridge == o.mirrorBridge
    requires forall n :: n in s.live ==> var e := o.patch(o.mirrorBridge, s.live[n].bridge); e in s.ovs && s.ovs[e].bridge == o.mirrorBridge
    requires forall name :: name in s.ovs ==> name in s'.ovs && s'.ovs[name] == s.ovs[name]
    requires s'.flows == TagFlow(o, s'.ovs, s.flows, net.bridge, net.vlan) && s'.live == s.live[id := net]
    ensures Tagged(o, s')
  {
    var end := o.patch(o.mirrorBridge, net.bridge);
    forall n | n in s'.live
      ensures var e := o.patch(o.mirrorBridge, s'.live[n].bridge);
              e in s'.ovs && s'.ovs[e].port in s'.flows && s'.flows[s'.ovs[e].port] == s'.live[n].vlan
    {
      if n != id {
        var e := o.patch(o.mirrorBridge, s.live[n].bridge);
        assert e in s.ovs && e != end;
        assert s'.ovs[e] != s'.ovs[end];
      }
    }
  }

  // -------------------------------------------------------------------------------------
  // Deleting a bridge

  lemma DeleteLinksEffect(o: Options, ovs: Ovs, bridge: string)
    ensures forall name :: name in DeleteLinks(o, ovs, bridge) <==> name in ovs && !IsEnd(o, bridge, name)
    ensures forall name :: name in DeleteLinks(o, ovs, bridge) ==> DeleteLinks(o, ovs, bridge)[name] == ovs[name]
  {
    forall name ensures IsEnd(o, bridge, name) <==>
        || (UsingMirrorBridge(o) && (name == o.patch(bridge, o.mirrorBridge) || name == o.patch(o.mirrorBridge, bridge)))
        || (UsingStacking(o) && (name == o.patch(bridge, o.stackDp) || name == o.patch(o.stackDp, bridge)))
        || (UsingStackMirroring(o) && (name == o.patch(bridge, o.loopbackBridge) || name == o.patch(o.loopbackBridge, bridge)))
    {
      assert UsingMirrorBridge(o) ==> o.mirrorBridge in Peers(o);
      assert UsingStacking(o) ==> o.stackDp in Peers(o);
      assert UsingStackMirroring(o) ==> o.loopbackBridge in Peers(o);
    }
    hide IsEnd;
  }

  /** Deleting a bridge undoes initialising it: the interfaces are what they were. */
  lemma DeleteUndoesInit(o: Options, ovs: Ovs, bridge: string, lb: nat, other: nat, attached: map<string, nat>)
    requires OptionsOk(o) && Numbered(ovs) && bridge !in SharedBridges(o) && Distinguishes(o, SharedBridges(o) + {bridge})
    requires forall name :: name in ovs ==> ovs[name].bridge != bridge
    requires forall name :: name in attached ==> name !in ovs && attached[name] >= 1
    requires forall x, y :: x in attached && y in attached && attached[x] == attached[y] ==> x == y
    requires forall name :: IsEnd(o, bridge, name) ==> name !in ovs && name !in attached
    requires other >= 1 && other !in Used(o, Attach(ovs, bridge, attached), bridge, other)
    ensures WithoutBridge(DeleteLinks(o, InitLinks(o, Attach(ovs, bridge, attached), bridge, lb, other), bridge), bridge) == ovs
  {
    var before := Attach(ovs, bridge, attached);
    AttachNumbered(ovs, bridge, attached);
    hide Distinguishes, Numbered;
    InitLinksEffect(o, before, bridge, 0, lb, other);
    hide InitLinks, DeleteLinks, Linked, Used;
    var linked := InitLinks(o, before, bridge, lb, other);
    DeleteLinksEffect(o, linked, bridge);
    hide IsEnd;
    Undone(o, ovs, bridge, attached, linked, DeleteLinks(o, linked, bridge));
  }

  lemma Undone(o: Options, ovs: Ovs, bridge: string, attached: map<string, nat>, linked: Ovs, cut: Ovs)
    requires forall name :: name in ovs ==> ovs[name].bridge != bridge && name !in attached && !IsEnd(o, bridge, name)
    requires forall name :: name in Attach(ovs, bridge, attached) ==>
               name in linked && linked[name] == Attach(ovs, bridge, attached)[name]
    requires forall name :: name in linked ==> name in Attach(ovs, bridge, attached) || IsEnd(o, bridge, name)
    requires forall name :: name in cut <==> name in linked && !IsEnd(o, bridge, name)
    requires forall name :: name in cut ==> cut[name] == linked[name]
    ensures WithoutBridge(cut, bridge) == ovs
  {
    hide IsEnd;
    forall name ensures name in WithoutBridge(cut, bridge) <==> name in ovs {
      if name in WithoutBridge(cut, bridge) {
        assert name in Attach(ovs, bridge, attached);
      }
      if name in ovs {
        assert name in Attach(ovs, bridge, attached) && name in cut;
      }
    }
  }

  /** Ends of different networks' links have different names. */
  lemma EndsDiffer(o: Options, s: Fabric, base: Ovs, n: Id, m: Id, h: string, name: string)
    requires NamesOk(o, s, base) && n in s.live && m in s.live && n != m && h in Peers(o)
    requires name == o.patch(h, s.live[n].bridge) || name == o.patch(s.live[n].bridge, h)
    ensures !IsEnd(o, s.live[m].bridge, name)
  {
    var all := InPlay(o, s.live);
    var a, b := s.live[n].bridge, s.live[m].bridge;
    assert a in all && b in all && h in all;
    forall h' | h' in Peers(o) ensures name != o.patch(b, h') && name != o.patch(h', b) {
      assert h' in all && h' in SharedBridges(o) && h in SharedBridges(o);
    }
  }

  ghost predicate Deletes(o: Options, s: Fabric, s': Fabric, id: Id) {
    && id in s.live && s'.live == s.live - {id} && s'.flows == s.flows
    && (forall name :: name in s'.ovs <==> name in s.ovs && !IsEnd(o, s.live[id].bridge, name) && s.ovs[name].bridge != s.live[id].bridge)
    && (forall name :: name in s'.ovs ==> s'.ovs[name] == s.ovs[name])
  }

  lemma DeleteInv(o: Options, s: Fabric, id: Id, base: Ovs)
    requires Inv(o, s, base) && id in s.live
    ensures Inv(o, Next(o, s, Delete(id)), base)
  {
    var s' := Next(o, s, Delete(id));
    DeleteLinksEffect(o, s.ovs, s.live[id].bridge);
    assert Deletes(o, s, s', id) by { hide DeleteLinks, IsEnd; }
    hide Next, DeleteLinks, Deletes;
    DeleteNames(o, s, s', id, base);
    forall n | n in s.live && n != id ensures StillLinked(o, s, s', n) {
      KeepsLinks(o, s, s', id, base, n);
    }
    DeleteConserved(o, s, s', id, base);
    DeleteTagged(o, s, s', id, base);
    hide NamesOk, Conserved, Tagged, AllEndNumbers;
    DeleteNumbers(o, s, s', id);
  }

  lemma DeleteNumbers(o: Options, s: Fabric, s': Fabric, id: Id)
    requires OptionsOk(o) && AllEndNumbers(o, s) && s'.live == s.live - {id}
    requires forall n :: n in s.live && n != id ==> StillLinked(o, s, s', n)
    ensures AllEndNumbers(o, s')
  {
    forall n | n in s'.live ensures EndNumbers(o, s'.ovs, s'.live[n]) {
      assert StillLinked(o, s, s', n) && EndNumbers(o, s.ovs, s.live[n]);
      hide EndNumbers, Peers;
      NumbersStay(o, s.ovs, s'.ovs, s.live[n]);
    }
  }

  ghost predicate StillLinked(o: Options, s: Fabric, s': Fabric, n: Id) {
    n in s.live && forall h :: h in Peers(o) ==>
      && o.patch(s.live[n].bridge, h) in s'.ovs && o.patch(h, s.live[n].bridge) in s'.ovs
      && o.patch(s.live[n].bridge, h) in s.ovs && o.patch(h, s.live[n].bridge) in s.ovs
      && s'.ovs[o.patch(s.live[n].bridge, h)] == s.ovs[o.patch(s.live[n].bridge, h)]
      && s'.ovs[o.patch(h, s.live[n].bridge)] == s.ovs[o.patch(h, s.live[n].bridge)]
  }

  lemma KeepsLinks(o: Options, s: Fabric, s': Fabric, id: Id, base: Ovs, n: Id)
    requires NamesOk(o, s, base) && Conserved(o, s, base) && Deletes(o, s, s', id) && n in s.live && n != id
    ensures StillLinked(o, s, s', n)
  {
    assert Linked(o, s.ovs, s.live[n].bridge);
    forall h | h in Peers(o)
      ensures o.patch(s.live[n].bridge, h) in s'.ovs && o.patch(h, s.live[n].bridge) in s'.ovs
    {
      EndsDiffer(o, s, base, n, id, h, o.patch(h, s.live[n].bridge));
      EndsDiffer(o, s, base, n, id, h, o.patch(s.live[n].bridge, h));
      assert h in SharedBridges(o);
    }
  }

  lemma DeleteNames(o: Options, s: Fabric, s': Fabric, id: Id, base: Ovs)
    requires NamesOk(o, s, base) && s'.live == s.live - {id}
    ensures NamesOk(o, s', base)
  {
    hide IsEnd;
    FewerNames(o, InPlay(o, s'.live), InPlay(o, s.live));
    hide Distinguishes;
  }

  lemma DeleteConserved(o: Options, s: Fabric, s': Fabric, id: Id, base: Ovs)
    requires NamesOk(o, s, base) && Conserved(o, s, base) && Deletes(o, s, s', id)
    requires forall n :: n in s.live && n != id ==> StillLinked(o, s, s', n)
    ensures Conserved(o, s', base)
  {
    hide Distinguishes, EndsOwned, BaseKept, Linked, StillLinked, IsEnd, AllLinked, NamesOk;
    assert Numbered(s'.ovs);
    hide Numbered;
    DeleteLinked(o, s, s', id);
    DeleteOwned(o, s, s', id, base);
    DeleteBase(o, s, s', id, base);
  }

  lemma DeleteLinked(o: Options, s: Fabric, s': Fabric, id: Id)
    requires AllLinked(o, s) && s'.live == s.live - {id}
    requires forall n :: n in s.live && n != id ==> StillLinked(o, s, s', n)
    ensures AllLinked(o, s')
  {
    forall n | n in s'.live ensures Linked(o, s'.ovs, s'.live[n].bridge) {
      assert StillLinked(o, s, s', n) && Linked(o, s.ovs, s.live[n].bridge);
    }
  }

  lemma DeleteOwned(o: Options, s: Fabric, s': Fabric, id: Id, base: Ovs)
    requires EndsOwned(o, s, base) && Deletes(o, s, s', id)
    ensures EndsOwned(o, s', base)
  {
    forall name | name in s'.ovs && s'.ovs[name].bridge in SharedBridges(o) ensures Accounted(o, s', base, name) {
      if !(name in base && s.ovs[name] == base[name]) {
        var n, h :| OwnsEnd(o, s, n, h, name);
        assert !IsEnd(o, s.live[id].bridge, name);
        assert name != o.patch(h, s.live[id].bridge);
        assert OwnsEnd(o, s', n, h, name);
      }
    }
  }

  lemma DeleteBase(o: Options, s: Fabric, s': Fabric, id: Id, base: Ovs)
    requires NamesOk(o, s, base) && BaseKept(o, s, base) && Deletes(o, s, s', id)
    ensures BaseKept(o, s', base)
  {
    hide Distinguishes;
    forall name | name in base && base[name].bridge in SharedBridges(o) ensures name in s'.ovs && s'.ovs[name] == base[name] {
      assert !IsEnd(o, s.live[id].bridge, name);
    }
  }

  lemma DeleteTagged(o: Options, s: Fabric, s': Fabric, id: Id, base: Ovs)
    requires Tagged(o, s) && Deletes(o, s, s', id)
    requires forall n :: n in s.live && n != id ==> StillLinked(o, s, s', n)
    ensures Tagged(o, s')
  {
    if UsingMirrorBridge(o) {
      assert o.mirrorBridge in Peers(o);
      forall n | n in s'.live
        ensures var e := o.patch(o.mirrorBridge, s'.live[n].bridge);
                e in s'.ovs && s'.ovs[e].port in s'.flows && s'.flows[s'.ovs[e].port] == s'.live[n].vlan
      {
        assert StillLinked(o, s, s', n);
      }
    }
  }

  // -------------------------------------------------------------------------------------
  // Other ports on network bridges

  lemma PlugInv(o: Options, s: Fabric, op: Op, base: Ovs)
    requires Inv(o, s, base) && Legal(o, s, op) && op.Plug?
    ensures Inv(o, Next(o, s, op), base)
  {
    var s' := Next(o, s, op);
    assert UsedPorts(s.ovs, op.bridge) !! {op.port};
    PlugInNumbered(s.ovs, op.name, op.bridge, op.port, op.port);
    assert Numbered(s'.ovs);
    hide Numbered, Distinguishes, IsEnd;
    assert forall x :: x in s.ovs ==> x in s'.ovs && s'.ovs[x] == s.ovs[x];
    SameLinks(o, s, s', base);
  }

  lemma UnplugInv(o: Options, s: Fabric, op: Op, base: Ovs)
    requires Inv(o, s, base) && Legal(o, s, op) && op.Unplug?
    ensures Inv(o, Next(o, s, op), base)
  {
    hide Distinguishes, EndsOwned, BaseKept, AllLinked, NamesOk, Tagged;
    var s' := Next(o, s, op);
    assert Numbered(s'.ovs);
    hide Numbered;
    forall n, h | n in s.live && h in Peers(o)
      ensures KeptEnd(s, s', o.patch(s.live[n].bridge, h)) && KeptEnd(s, s', o.patch(h, s.live[n].bridge))
    {
      assert !IsEnd(o, s.live[n].bridge, op.name);
    }
    hide IsEnd;
    SameLinks(o, s, s', base);
  }

  /** Changes away from the shared bridges that leave every end in place. */
  lemma SameLinks(o: Options, s: Fabric, s': Fabric, base: Ovs)
    requires Inv(o, s, base) && s'.live == s.live && s'.flows == s.flows && Numbered(s'.ovs)
    requires forall n, h :: n in s.live && h in Peers(o) ==>
               && KeptEnd(s, s', o.patch(s.live[n].bridge, h)) && KeptEnd(s, s', o.patch(h, s.live[n].bridge))
    requires forall name :: name in s.ovs && s.ovs[name].bridge in SharedBridges(o) ==> KeptEnd(s, s', name)
    requires forall name :: name in s'.ovs && s'.ovs[name].bridge in SharedBridges(o) ==> name in s.ovs && s'.ovs[name] == s.ovs[name]
    ensures Inv(o, s', base)
  {
    SameNamesOk(o, s, s', base);
    SameNumbers(o, s, s');
    hide AllEndNumbers;
    hide Numbered, Distinguishes, IsEnd, NamesOk, Tagged;
    assert AllLinked(o, s') by {
      hide EndsOwned, BaseKept;
      forall n | n in s'.live ensures Linked(o, s'.ovs, s'.live[n].bridge) {
        assert Linked(o, s.ovs, s.live[n].bridge);
      }
    }
    SameTagged(o, s, s');
    hide AllLinked, Linked;
    forall name | name in s'.ovs && s'.ovs[name].bridge in SharedBridges(o) ensures Accounted(o, s', base, name) {
      AccountedStays(o, s, s', base, name);
    }
  }

  lemma SameNumbers(o: Options, s: Fabric, s': Fabric)
    requires OptionsOk(o) && AllEndNumbers(o, s) && s'.live == s.live
    requires forall n, h :: n in s.live && h in Peers(o) ==> KeptEnd(s, s', o.patch(s.live[n].bridge, h))
    ensures AllEndNumbers(o, s')
  {
    hide EndNumbers, Peers;
    forall n | n in s'.live ensures EndNumbers(o, s'.ovs, s'.live[n]) {
      assert EndNumbers(o, s.ovs, s.live[n]);
      NumbersStay(o, s.ovs, s'.ovs, s.live[n]);
    }
  }

  lemma SameNamesOk(o: Options, s: Fabric, s': Fabric, base: Ovs)
    requires NamesOk(o, s, base) && s'.live == s.live
    ensures NamesOk(o, s', base)
  {
    hide Distinguishes, IsEnd;
  }

  lemma SameTagged(o: Options, s: Fabric, s': Fabric)
    requires Tagged(o, s) && s'.live == s.live && s'.flows == s.flows
    requires forall n, h :: n in s.live && h in Peers(o) ==> KeptEnd(s, s', o.patch(h, s.live[n].bridge))
    ensures Tagged(o, s')
  {
    assert UsingMirrorBridge(o) ==> o.mirrorBridge in Peers(o);
  }

  ghost predicate KeptEnd(s: Fabric, s': Fabric, name: string) {
    name in s.ovs ==> name in s'.ovs && s'.ovs[name] == s.ovs[name]
  }

  // -------------------------------------------------------------------------------------
  // Whole runs

  ghost predicate LegalRun(o: Options, s: Fabric, ops: seq<Op>)
    decreases |ops|
  {
    ops != [] ==> Legal(o, s, ops[0]) && LegalRun(o, Next(o, s, ops[0]), ops[1..])
  }

  function Run(o: Options, s: Fabric, ops: seq<Op>): Fabric
    decreases |ops|
  {
    if ops == [] then s else Run(o, Next(o, s, ops[0]), ops[1..])
  }

  lemma {:induction false} RunInv(o: Options, s: Fabric, ops: seq<Op>, base: Ovs)
    requires Inv(o, s, base) && LegalRun(o, s, ops)
    ensures Inv(o, Run(o, s, ops), base)
    decreases |ops|
  {
    hide Inv, Legal, Next;
    if ops != [] {
      match ops[0] {
        case Init(_, _, _, _, _, _) => InitInv(o, s, ops[0], base);
        case Delete(id) => LegalDelete(o, s, id); DeleteInv(o, s, id, base);
        case Plug(_, _, _) => PlugInv(o, s, ops[0], base);
        case Unplug(_) => UnplugInv(o, s, ops[0], base);
      }
      RunInv(o, Next(o, s, ops[0]), ops[1..], base);
    }
  }

  lemma LegalDelete(o: Options, s: Fabric, id: Id)
    requires Legal(o, s, Delete(id))
    ensures id in s.live
  {
  }

  /** Over every run of creations, deletions and other changes on network bridges: the shared
      bridges carry what they started with and exactly one link end per live network and
      bridge in force, at distinct numbers; the networks' own ends have the numbers they want
      exactly where those were free; and mirrored traffic is tagged with the VLAN of the network
      it came from, although flows are never removed. */
  lemma LinksTheorem(o: Options, s: Fabric, ops: seq<Op>)
    requires OptionsOk(o) && s.live == map[] && Numbered(s.ovs) && Distinguishes(o, SharedBridges(o))
    requires LegalRun(o, s, ops)
    ensures Conserved(o, Run(o, s, ops), s.ovs) && Tagged(o, Run(o, s, ops)) && AllEndNumbers(o, Run(o, s, ops))
  {
    assert InPlay(o, s.live) == SharedBridges(o);
    assert Inv(o, s, s.ovs);
    RunInv(o, s, ops, s.ovs);
  }
}
