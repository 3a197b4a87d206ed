/** Names and values shared by the components of the model. */
module Types {

  datatype Option<+T> = None | Some(value: T)

  /** Docker's identifiers are long; the driver slices off five characters. */
  type Id = s: string | |s| >= 5 witness "00000"

  const PATCH_PREFIX := "ods"
  const OVS_PORT_PREFIX := "odsve"

  function TruncateId(id: Id): string {
    id[..5]
  }

  /** Host end of an endpoint's veth pair, which is also its port name on the bridge. */
  function Veth(endpoint: Id): string {
    OVS_PORT_PREFIX + TruncateId(endpoint)
  }

  predicate IsContainerPort(name: string) {
    OVS_PORT_PREFIX <= name
  }

  /** An endpoint's port is named odsve and the first five characters of its identifier, and that is
      what CreateEndpoint calls the host end of its veth pair. */
  lemma VethShape(e: Id)
    ensures |Veth(e)| == 10 && Veth(e)[..5] == "odsve" && Veth(e)[5..] == e[..5]
  {
  }

  lemma VethNames(a: Id, b: Id)
    ensures IsContainerPort(Veth(a))
    ensures Veth(a) == Veth(b) <==> a[..5] == b[..5]
  {
    VethShape(a);
    VethShape(b);
  }

  /** Two identifiers that share a port name, and two that agree in their last five characters only
      and do not. */
  lemma VethExamples()
    ensures Veth("abcdefghij") == "odsveabcde" && Veth("abcdefghij") == Veth("abcdezzzzz")
    ensures Veth("abcdefghij") != Veth("zzzzzfghij")
    ensures IsContainerPort("odsve12345") && !IsContainerPort("ods1a2b3c4d5e6f")
  {
    VethShape("abcdefghij");
    VethShape("abcdezzzzz");
    VethShape("zzzzzfghij");
    assert "abcdefghij"[..5] == "abcde" && "abcdezzzzz"[..5] == "abcde" && "zzzzzfghij"[..5] == "zzzzz";
    assert "abcde"[0] != "zzzzz"[0];
    assert "odsve12345"[..5] == "odsve" && "ods1a2b3c4d5e6f"[3] != 'v';
  }

  /** One entry of a datapath's interface table in the FAUCET configuration. */
  datatype Iface =
    | Container(description: string, vlan: nat, acls: string)
    | Physical(name: string, vlan: nat)
    | Coprocessor(name: string)
    | Preallocated(vlan: nat, acls: string)
    | Gateway(vlan: nat, acls: string)
    | MirrorOut
    | StackLink(dp: string, port: nat)
}
