/**
 The add_ports option: comma-separated ports, each portname[/ofport][/acl_name][/native_vlan].
 */
module AddPorts {
  import opened Types
  import opened Text

  /** The maps that parsing writes.  None is a map the caller did not ask for: that field is skipped. */
  datatype Maps = Maps(ports: map<string, nat>, acls: Option<map<nat, string>>, vlans: Option<map<string, nat>>)

  datatype Result = Ok(maps: Maps) | Panicked

  function ParseVlan(params: seq<string>, name: string, m: Maps): Result {
    if |params| >= 4 && params[3] != "" && m.vlans.Some? then
      match ParseUint32(params[3])
      case None => Panicked
      case Some(vlan) =>
        if vlan < 1 || vlan > 4094 then Panicked
        else Ok(m.(vlans := Some(m.vlans.value[name := vlan])))
    else Ok(m)
  }

  function ParsePort(text: string, m: Maps): Result {
    var params := Split(text, '/');
    var name := params[0];
    if |params| >= 2 && params[1] != "" then
      match ParseUint32(params[1])
      case None => Panicked
      case Some(port) =>
        var m1 := m.(ports := m.ports[name := port]);
        var m2 := if |params| >= 3 && params[2] != "" && m.acls.Some?
                  then m1.(acls := Some(m.acls.value[port := params[2]])) else m1;
        ParseVlan(params, name, m2)
    else
      ParseVlan(params, name, m.(ports := m.ports[name := 0]))
  }

  function ParseEach(texts: seq<string>, m: Maps): Result
    decreases |texts|
  {
    if texts == [] then Ok(m)
    else
      match ParsePort(texts[0], m)
      case Panicked => Panicked
      case Ok(m') => ParseEach(texts[1..], m')
  }

  function Parse(text: string, m: Maps): Result {
    if text == "" then Ok(m) else ParseEach(Split(text, ','), m)
  }

  method ParseAddPorts(text: string, m: Maps) returns (r: Result)
    ensures r == Parse(text, m)
  {
    if text == "" {
      return Ok(m);
    }
    var texts := Split(text, ',');
    var maps := m;
    var i := 0;
    assert texts[0..] == texts;
    while i < |texts|
      invariant 0 <= i <= |texts|
      invariant ParseEach(texts, m) == ParseEach(texts[i..], maps)
    {
      assert texts[i..][0] == texts[i] && texts[i..][1..] == texts[i + 1..];
      var params := Split(texts[i], '/');
      var name := params[0];
      var ports := maps.ports[name := 0];
      var acls := maps.acls;
      if |params| >= 2 && params[1] != "" {
        var number := ParseUint32(params[1]);
        if number.None? {
          return Panicked;
        }
        ports := ports[name := number.value];
        if |params| >= 3 && params[2] != "" && acls.Some? {
          acls := Some(acls.value[number.value := params[2]]);
        }
      }
      var one := ParseVlan(params, name, Maps(ports, acls, maps.vlans));
      assert maps.ports[name := 0][name := ports[name]] == maps.ports[name := ports[name]];
      assert one == ParsePort(texts[i], maps);
      if one.Panicked? {
        return Panicked;
      }
      maps := one.maps;
      i := i + 1;
    }
    return Ok(maps);
  }

  // -------------------------------------------------------------------------------------
  // Concatenation

  function Then(r: Result, text: string): Result {
    match r
    case Panicked => Panicked
    case Ok(m) => Parse(text, m)
  }

  lemma {:induction false} ParseEachConcat(a: seq<string>, b: seq<string>, m: Maps)
    ensures ParseEach(a + b, m) ==
            match ParseEach(a, m) { case Panicked => Panicked case Ok(m') => ParseEach(b, m') }
    decreases |a|
  {
    if a == [] {
      assert a + b == b;
    } else {
      assert (a + b)[0] == a[0] && (a + b)[1..] == a[1..] + b;
      var r := ParsePort(a[0], m);
      if r.Ok? {
        ParseEachConcat(a[1..], b, r.maps);
      }
    }
  }

  /** Parsing two lists joined by a comma is parsing one and then the other. */
  lemma ParseConcat(a: string, b: string, m: Maps)
    requires a != "" && b != ""
    ensures Parse(a + "," + b, m) == Then(Parse(a, m), b)
  {
    assert a + "," + b == a + [','] + b;
    SplitConcat(a, b, ',');
    ParseEachConcat(Split(a, ','), Split(b, ','), m);
  }

  /** How the ports given to bridge creation are put together. */
  function JoinedPorts(addPorts: string, coproPorts: string): string {
    if addPorts != "" && coproPorts != "" then addPorts + "," + coproPorts else addPorts + coproPorts
  }

  lemma JoinedIsSequence(addPorts: string, coproPorts: string, m: Maps)
    ensures Parse(JoinedPorts(addPorts, coproPorts), m) == Then(Parse(addPorts, m), coproPorts)
  {
    if addPorts != "" && coproPorts != "" {
      ParseConcat(addPorts, coproPorts, m);
    } else if addPorts == "" {
      assert addPorts + coproPorts == coproPorts;
    } else {
      assert addPorts + coproPorts == addPorts;
    }
  }

  /** Leaving the ACL map out changes nothing else. */
  ghost predicate SameButAcls(r: Result, q: Result) {
    r.Ok? == q.Ok? && (r.Ok? ==> r.maps.ports == q.maps.ports && r.maps.vlans == q.maps.vlans)
  }

  lemma {:induction false} ParseEachIgnoresAcls(texts: seq<string>, m: Maps, n: Maps)
    requires m.ports == n.ports && m.vlans == n.vlans
    ensures SameButAcls(ParseEach(texts, m), ParseEach(texts, n))
    decreases |texts|
  {
    if texts != [] {
      var r, q := ParsePort(texts[0], m), ParsePort(texts[0], n);
      if r.Ok? && q.Ok? {
        ParseEachIgnoresAcls(texts[1..], r.maps, q.maps);
      }
    }
  }

  /** Validation parses both options into fresh maps before the bridge is touched; if it gets
      through, the parse inside bridge creation gets through too, with the same ports. */
  lemma ValidationSuffices(addPorts: string, coproPorts: string)
    requires Then(Parse(addPorts, Maps(map[], Some(map[]), None)), coproPorts).Ok?
    ensures var r := Parse(JoinedPorts(addPorts, coproPorts), Maps(map[], None, None));
            r.Ok? && r.maps.ports == Then(Parse(addPorts, Maps(map[], Some(map[]), None)), coproPorts).maps.ports
  {
    var checked, bare := Maps(map[], Some(map[]), None), Maps(map[], None, None);
    JoinedIsSequence(addPorts, coproPorts, checked);
    JoinedIsSequence(addPorts, coproPorts, bare);
    var text := JoinedPorts(addPorts, coproPorts);
    if text != "" {
      ParseEachIgnoresAcls(Split(text, ','), checked, bare);
    }
  }

  // -------------------------------------------------------------------------------------
  // VLANs are not part of that validation

  ghost predicate VlanFieldOk(text: string) {
    var params := Split(text, '/');
    |params| >= 4 && params[3] != "" ==>
      ParseUint32(params[3]).Some? && 1 <= ParseUint32(params[3]).value <= 4094
  }

  ghost predicate VlanFieldsOk(texts: seq<string>) {
    forall i :: 0 <= i < |texts| ==> VlanFieldOk(texts[i])
  }

  lemma {:induction false} ParseEachVlans(texts: seq<string>, m: Maps, n: Maps)
    requires m.ports == n.ports && m.vlans.None? && n.vlans.Some?
    ensures ParseEach(texts, n).Ok? <==> ParseEach(texts, m).Ok? && VlanFieldsOk(texts)
    decreases |texts|
  {
    if texts != [] {
      var r, q := ParsePort(texts[0], m), ParsePort(texts[0], n);
      assert q.Ok? <==> r.Ok? && VlanFieldOk(texts[0]);
      if q.Ok? {
        ParseEachVlans(texts[1..], r.maps, q.maps);
        assert texts == [texts[0]] + texts[1..];
        assert VlanFieldsOk(texts) <==> VlanFieldOk(texts[0]) && VlanFieldsOk(texts[1..]);
      }
    }
  }

  /** The create handler asks for VLANs and validation does not: a list that passed validation
      gets through the handler exactly when each VLAN field is a number from 1 to 4094. */
  lemma HandlerParsesIff(text: string, acls: map<nat, string>)
    requires text != "" && Parse(text, Maps(map[], Some(acls), None)).Ok?
    ensures Parse(text, Maps(map[], Some(acls), Some(map[]))).Ok? <==> VlanFieldsOk(Split(text, ','))
  {
    ParseEachVlans(Split(text, ','), Maps(map[], Some(acls), None), Maps(map[], Some(acls), Some(map[])));
  }

  /** What the grammar cannot say.  A number that is none is a panic; an ACL without a port number is
      passed over; and so is everything after the fourth field. */
  lemma Unsayable(pieces: seq<string>, m: Maps)
    requires |pieces| >= 2 && forall i :: 0 <= i < |pieces| ==> Free(pieces[i], '/')
    ensures pieces[1] != "" && ParseUint32(pieces[1]).None? ==> ParsePort(Join(pieces, '/'), m).Panicked?
    ensures pieces[1] == "" && ParsePort(Join(pieces, '/'), m).Ok? ==> ParsePort(Join(pieces, '/'), m).maps.acls == m.acls
    ensures |pieces| > 4 ==> ParsePort(Join(pieces, '/'), m) == ParsePort(Join(pieces[..4], '/'), m)
  {
    SplitJoin(pieces, '/');
    hide Split, Join, ParseUint32;
    if |pieces| > 4 {
      FourFields(pieces, m);
    }
  }

  lemma FourFields(pieces: seq<string>, m: Maps)
    requires |pieces| > 4 && forall i :: 0 <= i < |pieces| ==> Free(pieces[i], '/')
    ensures ParsePort(Join(pieces, '/'), m) == ParsePort(Join(pieces[..4], '/'), m)
  {
    SplitJoin(pieces, '/');
    SplitJoin(pieces[..4], '/');
    hide Split, Join, ParseUint32;
    var four := pieces[..4];
    assert four[0] == pieces[0] && four[1] == pieces[1] && four[2] == pieces[2];
    forall m' ensures ParseVlan(four, pieces[0], m') == ParseVlan(pieces, pieces[0], m') {
      VlanOfFour(pieces, four, m');
    }
    hide ParseVlan;
  }

  lemma VlanOfFour(pieces: seq<string>, four: seq<string>, m: Maps)
    requires |pieces| > 4 && |four| == 4 && four[3] == pieces[3]
    ensures ParseVlan(four, pieces[0], m) == ParseVlan(pieces, pieces[0], m)
  {
    hide ParseUint32;
  }

  /** For instance eth0///5000, or any name with any other VLAN out of range: accepted when the
      network is requested, and a panic in the create handler later. */
  lemma UncheckedVlan(name: string, vlan: nat)
    requires Plain(name) && !(1 <= vlan <= 4094)
    ensures var text := Join([name, "", "", Decimal(vlan)], '/');
            && Parse(text, Maps(map[], Some(map[]), None)).Ok?
            && Parse(text, Maps(map[], Some(map[]), Some(map[]))).Panicked?
  {
    var pieces := [name, "", "", Decimal(vlan)];
    var text := Join(pieces, '/');
    DigitsAreFree(vlan, ',');
    DigitsAreFree(vlan, '/');
    ParseDecimal(vlan);
    SplitJoin(pieces, '/');
    JoinFree(pieces, '/', ',');
    SplitFree(text, ',');
    assert |text| >= |name|;
    hide Split, Join;
    OneText(text, Maps(map[], Some(map[]), None));
    OneText(text, Maps(map[], Some(map[]), Some(map[])));
    hide ParseEach, Decimal;
  }

  lemma OneText(text: string, m: Maps)
    ensures ParseEach([text], m) == ParsePort(text, m)
  {
    assert [text][1..] == [];
  }

  // -------------------------------------------------------------------------------------
  // Printing and parsing back

  datatype PortSpec = PortSpec(name: string, port: Option<nat>, acl: Option<string>, vlan: Option<nat>)

  ghost predicate Plain(s: string) {
    s != "" && Free(s, ',') && Free(s, '/')
  }

  /** What the documented grammar can say: an ACL only together with a port number. */
  ghost predicate Sayable(p: PortSpec) {
    && Plain(p.name)
    && (p.port.Some? ==> p.port.value < UINT32_LIMIT)
    && (p.acl.Some? ==> p.port.Some? && Plain(p.acl.value))
    && (p.vlan.Some? ==> 1 <= p.vlan.value <= 4094)
  }

  function Number(n: Option<nat>): string {
    if n.Some? then Decimal(n.value) else ""
  }

  function Params(p: PortSpec): seq<string> {
    var acl := if p.acl.Some? then p.acl.value else "";
    if p.vlan.Some? then [p.name, Number(p.port), acl, Number(p.vlan)]
    else if p.acl.Some? then [p.name, Number(p.port), acl]
    else if p.port.Some? then [p.name, Number(p.port)]
    else [p.name]
  }

  function PrintPort(p: PortSpec): string {
    Join(Params(p), '/')
  }

  function Texts(specs: seq<PortSpec>): (texts: seq<string>)
    ensures |texts| == |specs|
    ensures forall i :: 0 <= i < |specs| ==> texts[i] == PrintPort(specs[i])
  {
    seq(|specs|, i requires 0 <= i < |specs| => PrintPort(specs[i]))
  }

  function Print(specs: seq<PortSpec>): string {
    if specs == [] then "" else Join(Texts(specs), ',')
  }

  /** The value written last, searching from the end: a port's number (0 when unset) by name,
      an ACL by port number, a VLAN by name. */
  function LastPort(specs: seq<PortSpec>, name: string): Option<nat> {
    if specs == [] then None
    else
      var p := specs[|specs| - 1];
      if p.name == name then Some(if p.port.Some? then p.port.value else 0)
      else LastPort(specs[..|specs| - 1], name)
  }

  function LastAcl(specs: seq<PortSpec>, port: nat): Option<string> {
    if specs == [] then None
    else
      var p := specs[|specs| - 1];
      if p.port == Some(port) && p.acl.Some? then p.acl else LastAcl(specs[..|specs| - 1], port)
  }

  function LastVlan(specs: seq<PortSpec>, name: string): Option<nat> {
    if specs == [] then None
    else
      var p := specs[|specs| - 1];
      if p.name == name && p.vlan.Some? then p.vlan else LastVlan(specs[..|specs| - 1], name)
  }

  function Get<K, V>(m: map<K, V>, k: K): Option<V> {
    if k in m then Some(m[k]) else None
  }

  ghost predicate LastWriters(m: Maps, specs: seq<PortSpec>) {
    && m.acls.Some? && m.vlans.Some?
    && (forall name :: Get(m.ports, name) == LastPort(specs, name))
    && (forall port :: Get(m.acls.value, port) == LastAcl(specs, port))
    && (forall name :: Get(m.vlans.value, name) == LastVlan(specs, name))
  }

  function Apply(p: PortSpec, m: Maps): Maps
    requires m.acls.Some? && m.vlans.Some?
  {
    Maps(m.ports[p.name := if p.port.Some? then p.port.value else 0],
         if p.acl.Some? && p.port.Some? then Some(m.acls.value[p.port.value := p.acl.value]) else m.acls,
         if p.vlan.Some? then Some(m.vlans.value[p.name := p.vlan.value]) else m.vlans)
  }

  lemma NumberPlain(n: Option<nat>)
    ensures Free(Number(n), ',') && Free(Number(n), '/')
    ensures n.Some? ==> Number(n) != ""
    ensures n.Some? && n.value < UINT32_LIMIT ==> ParseUint32(Number(n)) == n
  {
    if n.Some? {
      DigitsAreFree(n.value, ',');
      DigitsAreFree(n.value, '/');
      ParseDecimal(n.value);
    }
  }

  lemma ParamsPlain(p: PortSpec)
    requires Sayable(p)
    ensures forall i :: 0 <= i < |Params(p)| ==> Free(Params(p)[i], '/') && Free(Params(p)[i], ',')
  {
    NumberPlain(p.port);
    NumberPlain(p.vlan);
  }

  lemma ParsePrintedPort(p: PortSpec, m: Maps)
    requires Sayable(p) && m.acls.Some? && m.vlans.Some?
    ensures ParsePort(PrintPort(p), m) == Ok(Apply(p, m))
  {
    ParamsPlain(p);
    SplitJoin(Params(p), '/');
    NumberPlain(p.port);
    NumberPlain(p.vlan);
  }

  lemma {:induction false} JoinFree(pieces: seq<string>, sep: char, other: char)
    requires |pieces| >= 1 && sep != other
    requires forall i :: 0 <= i < |pieces| ==> Free(pieces[i], other)
    ensures Free(Join(pieces, sep), other)
  {
    if |pieces| > 1 {
      JoinFree(pieces[1..], sep, other);
    }
  }

  lemma ApplyLast(p: PortSpec, m: Maps, specs: seq<PortSpec>)
    requires LastWriters(m, specs) && Sayable(p)
    ensures LastWriters(Apply(p, m), specs + [p])
  {
    var all, m' := specs + [p], Apply(p, m);
    assert all[..|all| - 1] == specs && all[|all| - 1] == p;
    forall name ensures Get(m'.ports, name) == LastPort(all, name) && Get(m'.vlans.value, name) == LastVlan(all, name) {
      assert Get(m.ports, name) == LastPort(specs, name);
      assert Get(m.vlans.value, name) == LastVlan(specs, name);
    }
    forall port ensures Get(m'.acls.value, port) == LastAcl(all, port) {
      assert Get(m.acls.value, port) == LastAcl(specs, port);
    }
  }

  lemma {:induction false} ParsePrintedEach(specs: seq<PortSpec>, before: seq<PortSpec>, m: Maps)
    requires LastWriters(m, before) && forall i :: 0 <= i < |specs| ==> Sayable(specs[i])
    ensures var r := ParseEach(Texts(specs), m); r.Ok? && LastWriters(r.maps, before + specs)
    decreases |specs|
  {
    hide LastWriters, Sayable, ParsePort;
    if specs == [] {
      assert before + specs == before;
    } else {
      LastWritersMaps(m, before);
      ParsePrintedPort(specs[0], m);
      ApplyLast(specs[0], m, before);
      assert Texts(specs)[1..] == Texts(specs[1..]);
      ParsePrintedEach(specs[1..], before + [specs[0]], Apply(specs[0], m));
      assert before + [specs[0]] + specs[1..] == before + specs;
    }
  }

  lemma LastWritersMaps(m: Maps, specs: seq<PortSpec>)
    requires LastWriters(m, specs)
    ensures m.acls.Some? && m.vlans.Some?
  {
  }

  /** Any list of ports, printed in the documented grammar and parsed back, gives exactly the
      last value written to each field. */
  lemma AddPortsRoundTrip(specs: seq<PortSpec>)
    requires forall i :: 0 <= i < |specs| ==> Sayable(specs[i])
    ensures var r := Parse(Print(specs), Maps(map[], Some(map[]), Some(map[])));
            r.Ok? && LastWriters(r.maps, specs)
  {
    var m := Maps(map[], Some(map[]), Some(map[]));
    assert LastWriters(m, []);
    if specs != [] {
      var texts := Texts(specs);
      forall i | 0 <= i < |texts| ensures Free(texts[i], ',') {
        ParamsPlain(specs[i]);
        JoinFree(Params(specs[i]), '/', ',');
      }
      SplitJoin(texts, ',');
      ParsePrintedEach(specs, [], m);
      assert [] + specs == specs;
      NotEmpty(specs);
    }
  }

  lemma NotEmpty(specs: seq<PortSpec>)
    requires specs != [] && Sayable(specs[0])
    ensures Print(specs) != ""
  {
    var texts := Texts(specs);
    assert texts[0] == PrintPort(specs[0]);
    assert |PrintPort(specs[0])| >= |specs[0].name|;
  }

  /** The case with everything but the VLAN left out prints as in the documentation. */
  lemma VlanOnly()
    ensures PrintPort(PortSpec("eth0", None, None, Some(20))) == "eth0///20"
  {
    assert Decimal(20) == Decimal(2) + ['0'];
    assert Decimal(2) == ['2'];
    assert Number(Some(20)) == "20";
    var pieces := ["eth0", "", "", "20"];
    assert Params(PortSpec("eth0", None, None, Some(20))) == pieces;
    assert Join(pieces[3..], '/') == "20";
    assert Join(pieces[2..], '/') == "/20" by { assert pieces[2..][1..] == pieces[3..]; }
    assert Join(pieces[1..], '/') == "//20" by { assert pieces[1..][1..] == pieces[2..]; }
  }
}
