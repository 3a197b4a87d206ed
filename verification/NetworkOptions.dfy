/** A network's port options, from the texts of the request to what creation configures. */
module NetworkOptions {
  import opened Types
  import opened Text
  import opened World
  import opened Handlers
  import C = Creation
  import P = AddPorts

  /** The create handler parses the physical ports with their VLANs and then the coprocessor ports
      without, each into a fresh map of ports and both into one of ACLs. */
  ghost predicate FromTexts(net: Network, addPorts: string, coproPorts: string) {
    var r := P.Parse(addPorts, P.Maps(map[], Some(map[]), Some(map[])));
    && r.Ok? && r.maps.vlans.Some?
    && var q := P.Parse(coproPorts, P.Maps(map[], r.maps.acls, None));
       && q.Ok?
       && net.physical.Keys == r.maps.ports.Keys
       && (forall x :: x in net.physical ==> net.physical[x] == P.Get(r.maps.vlans.value, x))
       && net.copro == q.maps.ports.Keys
  }

  // -------------------------------------------------------------------------------------
  // Which ports are named does not depend on what else is asked for

  function Names(texts: seq<string>): set<string> {
    set t | t in texts :: Split(t, '/')[0]
  }

  lemma ParsePortKeys(text: string, m: P.Maps, n: P.Maps)
    requires P.ParsePort(text, m).Ok? && n.vlans.None?
    ensures P.ParsePort(text, n).Ok? && P.ParsePort(text, n).maps.vlans.None?
    ensures P.ParsePort(text, m).maps.ports.Keys == m.ports.Keys + {Split(text, '/')[0]}
    ensures P.ParsePort(text, n).maps.ports.Keys == n.ports.Keys + {Split(text, '/')[0]}
  {
    hide Split, ParseUint32;
  }

  lemma {:induction false} ParseEachKeys(texts: seq<string>, m: P.Maps, n: P.Maps)
    requires P.ParseEach(texts, m).Ok? && n.vlans.None?
    ensures P.ParseEach(texts, n).Ok? && P.ParseEach(texts, n).maps.vlans.None?
    ensures P.ParseEach(texts, m).maps.ports.Keys == m.ports.Keys + Names(texts)
    ensures P.ParseEach(texts, n).maps.ports.Keys == n.ports.Keys + Names(texts)
    decreases |texts|
  {
    hide P.ParsePort, Split;
    if texts != [] {
      ParsePortKeys(texts[0], m, n);
      ParseEachKeys(texts[1..], P.ParsePort(texts[0], m).maps, P.ParsePort(texts[0], n).maps);
      assert texts == [texts[0]] + texts[1..];
      assert Names(texts) == {Split(texts[0], '/')[0]} + Names(texts[1..]);
    }
  }

  function NamesIn(text: string): set<string> {
    if text == "" then {} else Names(Split(text, ','))
  }

  lemma ParseKeys(text: string, m: P.Maps, n: P.Maps)
    requires P.Parse(text, m).Ok? && n.vlans.None?
    ensures P.Parse(text, n).Ok? && P.Parse(text, n).maps.vlans.None?
    ensures P.Parse(text, m).maps.ports.Keys == m.ports.Keys + NamesIn(text)
    ensures P.Parse(text, n).maps.ports.Keys == n.ports.Keys + NamesIn(text)
  {
    hide P.ParseEach, Names;
    if text != "" {
      ParseEachKeys(Split(text, ','), m, n);
    }
  }

  /** The names the reconciler passes over, which it gets by parsing both texts into one map at every
      pass, are those of the ports that creation was given. */
  lemma CreationNames(s: State, id: Id, addPorts: string, coproPorts: string)
    requires id in s.networks && FromTexts(s.networks[id], addPorts, coproPorts)
    ensures var r := P.Then(P.Parse(addPorts, P.Maps(map[], None, None)), coproPorts);
            r.Ok? && SettingsOf(s, id).creation == r.maps.ports.Keys
  {
    hide P.Parse, NamesIn;
    var m, bare := P.Maps(map[], Some(map[]), Some(map[])), P.Maps(map[], None, None);
    ParseKeys(addPorts, m, bare);
    var acls := P.Parse(addPorts, m).maps.acls;
    ParseKeys(coproPorts, P.Maps(map[], acls, None), P.Parse(addPorts, bare).maps);
  }

  // -------------------------------------------------------------------------------------
  // From the texts to the table

  /** A printed list of physical ports gives each of them its own VLAN, or none. */
  lemma PhysicalFromSpecs(net: Network, specs: seq<P.PortSpec>, coproPorts: string, x: string)
    requires FromTexts(net, P.Print(specs), coproPorts) && forall i :: 0 <= i < |specs| ==> P.Sayable(specs[i])
    ensures x in net.physical <==> P.LastPort(specs, x).Some?
    ensures x in net.physical ==> net.physical[x] == P.LastVlan(specs, x)
  {
    P.AddPortsRoundTrip(specs);
    hide P.Parse, P.Print, P.Sayable, P.LastPort, P.LastVlan, P.LastAcl;
    var m := P.Parse(P.Print(specs), P.Maps(map[], Some(map[]), Some(map[]))).maps;
    assert P.Get(m.ports, x) == P.LastPort(specs, x);
    assert P.Get(m.vlans.value, x) == P.LastVlan(specs, x);
  }

  lemma CoproFromSpecs(net: Network, addPorts: string, specs: seq<P.PortSpec>, x: string)
    requires FromTexts(net, addPorts, P.Print(specs)) && forall i :: 0 <= i < |specs| ==> P.Sayable(specs[i])
    ensures x in net.copro <==> P.LastPort(specs, x).Some?
  {
    P.AddPortsRoundTrip(specs);
    hide P.Parse, P.Print, P.Sayable, P.LastPort, P.LastVlan, P.LastAcl, NamesIn;
    var m := P.Maps(map[], Some(map[]), Some(map[]));
    var acls := P.Parse(addPorts, m).maps.acls;
    ParseKeys(P.Print(specs), m, P.Maps(map[], acls, None));
    assert P.Get(P.Parse(P.Print(specs), m).maps.ports, x) == P.LastPort(specs, x);
  }

  /** Ports of one bridge have numbers of their own. */
  lemma OwnNumbers(ovs: map<string, Attachment>, bridge: string, names: seq<string>, x: string)
    requires Numbered(ovs) && x in ovs && ovs[x].bridge == bridge
    requires forall y :: y in names ==> y in ovs && ovs[y].bridge == bridge
    ensures C.OwnNumber(ovs, names, x)
  {
  }

  /** From the option's text to the controller, for every list of ports that the documented grammar
      can say: after creation each port of the list is configured at its number, on the VLAN given
      for it last or else on the network's, exactly if it is not listed as a coprocessor port too and
      neither the preallocated window, the gateway nor the link has its number. */
  lemma OptionsTheorem(s: State, id: Id, net: Network, lb: nat, specs: seq<P.PortSpec>, coproSpecs: seq<P.PortSpec>,
                       physical: seq<string>, copro: seq<string>, x: string)
    requires forall i :: 0 <= i < |specs| ==> P.Sayable(specs[i])
    requires forall i :: 0 <= i < |coproSpecs| ==> P.Sayable(coproSpecs[i])
    requires FromTexts(net, P.Print(specs), P.Print(coproSpecs)) && P.LastPort(specs, x).Some?
    requires Lists(physical, net.physical.Keys) && Lists(copro, net.copro) && Numbered(s.ovs)
    requires forall y :: y in physical || y in copro ==> y in s.ovs && s.ovs[y].bridge == net.bridge
    requires forall y :: y in LinkEnds(s.links, net) ==> y in s.ovs
    ensures x in s.ovs
    ensures var r := Exec(s, CreateScript(s, id, net, lb, physical, copro), NoFault);
            var t, p := Table(r.state, net.name), s.ovs[x].port;
            var vlan := if P.LastVlan(specs, x).Some? then P.LastVlan(specs, x).value else net.vlan;
            && r.completed && p in t
            && (t[p] == Physical(x, vlan) <==> P.LastPort(coproSpecs, x).None? && !C.Overridden(s.ovs, s.links, net, lb, p))
  {
    PhysicalFromSpecs(net, specs, P.Print(coproSpecs), x);
    CoproFromSpecs(net, P.Print(specs), coproSpecs, x);
    hide FromTexts, P.Print, P.Sayable, P.LastPort, P.LastVlan;
    assert x in physical && (x in copro <==> x in net.copro);
    OwnNumbers(s.ovs, net.bridge, physical, x);
    OwnNumbers(s.ovs, net.bridge, copro, x);
    hide Numbered, C.OwnNumber, Lists, C.Overridden, Exec, CreateScript, CreateIfaces, LinkEnds;
    C.PhysicalConfiguredIff(s.ovs, s.links, net, lb, physical, copro, x);
    C.CreateTheorem(s, id, net, lb, physical, copro);
    hide Table;
  }

  const ETH0 := P.PortSpec("eth0", None, None, Some(20))

  lemma Eth0Said(x: string)
    ensures P.Sayable(ETH0) && P.Print([ETH0]) == "eth0///20" && P.Print([]) == ""
    ensures P.LastPort([ETH0], x).Some? <==> x == "eth0"
    ensures P.LastVlan([ETH0], "eth0") == Some(20) && P.LastPort([], x).None?
  {
    P.VlanOnly();
    hide P.PrintPort;
    assert [ETH0][..0] == [];
  }

  lemma Eth0Member(net: Network, x: string)
    requires FromTexts(net, "eth0///20", "")
    ensures (x in net.physical <==> x == "eth0") && x !in net.copro
  {
    Eth0Said(x);
    hide P.Print, P.LastPort, P.LastVlan, P.Sayable, FromTexts;
    PhysicalFromSpecs(net, [ETH0], "", x);
    CoproFromSpecs(net, "eth0///20", [], x);
  }

  lemma Eth0Alone(net: Network)
    requires FromTexts(net, "eth0///20", "")
    ensures Lists(["eth0"], net.physical.Keys) && Lists([], net.copro)
  {
    hide FromTexts;
    forall x ensures (x in net.physical <==> x == "eth0") && x !in net.copro {
      Eth0Member(net, x);
    }
  }

  lemma NothingOverrides(s: State, net: Network)
    requires net.preallocate == 0 && net.mode == Flat && s.links.NoLinks?
    ensures !C.Overridden(s.ovs, s.links, net, 99, 1) && LinkEnds(s.links, net) == []
  {
    hide UsedPorts;
  }

  /** The documented eth0///20 on a network of VLAN 100: the port is configured on VLAN 20. */
  lemma OwnVlan(s: State, id: Id, net: Network)
    requires FromTexts(net, "eth0///20", "") && net.vlan == 100 && net.preallocate == 0 && net.mode == Flat
    requires s.links.NoLinks? && Numbered(s.ovs) && "eth0" in s.ovs && s.ovs["eth0"] == At(net.bridge, 1)
    ensures var r := Exec(s, CreateScript(s, id, net, 99, ["eth0"], []), NoFault);
            r.completed && 1 in Table(r.state, net.name) && Table(r.state, net.name)[1] == Physical("eth0", 20)
  {
    Eth0Said("eth0");
    Eth0Alone(net);
    NothingOverrides(s, net);
    hide P.Print, P.LastPort, P.LastVlan, P.Sayable, FromTexts, Lists, Numbered, Exec, CreateScript, C.Overridden, LinkEnds, Table;
    OptionsTheorem(s, id, net, 99, [ETH0], [], ["eth0"], [], "eth0");
  }
}
