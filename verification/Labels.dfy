/**
 Per-network lookup in a label such as allowall/net1:acl1/net2:acl2: a bare segment is a
 default, a name:value segment applies to one network, and later segments win.
 */
module Labels {
  import opened Types
  import opened Text

  /** The value a segment gives to a network, if it applies to it. */
  function SegmentValue(segment: string, network: string): Option<string> {
    var pair := Split(segment, ':');
    if |pair| == 1 then Some(pair[0])
    else if |pair| == 2 && network == pair[0] then Some(pair[1])
    else None
  }

  /** The value of the last segment that applies. */
  function LastMatch(segments: seq<string>, network: string): Option<string> {
    if segments == [] then None
    else
      var last := SegmentValue(segments[|segments| - 1], network);
      if last.Some? then last else LastMatch(segments[..|segments| - 1], network)
  }

  function ForNetwork(text: string, network: string): string {
    var m := LastMatch(Split(text, '/'), network);
    if m.Some? then m.value else ""
  }

  method GetStrForNetwork(text: string, network: string) returns (value: string)
    ensures value == ForNetwork(text, network)
  {
    value := "";
    var segments := Split(text, '/');
    for i := 0 to |segments|
      invariant var m := LastMatch(segments[..i], network); value == if m.Some? then m.value else ""
    {
      assert segments[..i + 1][..i] == segments[..i];
      var pair := Split(segments[i], ':');
      if |pair| == 1 {
        value := pair[0];
      } else if |pair| == 2 {
        if network == pair[0] {
          value := pair[1];
        }
      }
    }
    assert segments[..|segments|] == segments;
  }

  /** Segment i applies to the network and none after it does. */
  ghost predicate Decides(segments: seq<string>, network: string, i: nat) {
    && i < |segments| && SegmentValue(segments[i], network).Some?
    && forall j :: i < j < |segments| ==> SegmentValue(segments[j], network).None?
  }

  /** The last segment that applies decides, and a label where none applies gives nothing. */
  lemma {:induction false} LastSegmentDecides(segments: seq<string>, network: string)
    ensures forall i: nat :: Decides(segments, network, i) ==> LastMatch(segments, network) == SegmentValue(segments[i], network)
    ensures LastMatch(segments, network).None? <==> forall s :: s in segments ==> SegmentValue(s, network).None?
  {
    if segments != [] {
      var n := |segments| - 1;
      LastSegmentDecides(segments[..n], network);
      forall i: nat | Decides(segments, network, i) ensures LastMatch(segments, network) == SegmentValue(segments[i], network) {
        if i < n {
          assert SegmentValue(segments[n], network).None?;
          assert Decides(segments[..n], network, i);
        }
      }
      assert segments == segments[..n] + [segments[n]];
    }
  }

  // -------------------------------------------------------------------------------------
  // Printing a label and looking it up

  datatype Entry = Entry(network: string, value: string)

  ghost predicate Plain(s: string) {
    Free(s, '/') && Free(s, ':')
  }

  ghost predicate PlainEntries(entries: seq<Entry>) {
    forall i :: 0 <= i < |entries| ==> Plain(entries[i].network) && Plain(entries[i].value)
  }

  function Segments(entries: seq<Entry>): (segments: seq<string>)
    ensures |segments| == |entries|
    ensures forall i :: 0 <= i < |entries| ==> segments[i] == entries[i].network + ":" + entries[i].value
  {
    seq(|entries|, i requires 0 <= i < |entries| => entries[i].network + ":" + entries[i].value)
  }

  function PrintLabel(default: string, entries: seq<Entry>): string {
    Join([default] + Segments(entries), '/')
  }

  /** The entries as a map, later ones overriding earlier ones. */
  function AsMap(entries: seq<Entry>): map<string, string> {
    if entries == [] then map[]
    else
      var last := entries[|entries| - 1];
      AsMap(entries[..|entries| - 1])[last.network := last.value]
  }

  lemma SegmentOfEntry(e: Entry, network: string)
    requires Plain(e.network) && Plain(e.value)
    ensures SegmentValue(e.network + ":" + e.value, network) == if network == e.network then Some(e.value) else None
    ensures Free(e.network + ":" + e.value, '/')
  {
    assert e.network + ":" + e.value == e.network + [':'] + e.value;
    SplitConcat(e.network, e.value, ':');
    SplitFree(e.network, ':');
    SplitFree(e.value, ':');
  }

  lemma {:induction false} LastMatchOfEntries(default: string, entries: seq<Entry>, network: string)
    requires Plain(default) && PlainEntries(entries)
    ensures LastMatch([default] + Segments(entries), network) ==
            Some(if network in AsMap(entries) then AsMap(entries)[network] else default)
  {
    var all := [default] + Segments(entries);
    if entries == [] {
      SplitFree(default, ':');
      assert all == [default];
    } else {
      var n := |entries| - 1;
      SegmentOfEntry(entries[n], network);
      assert all[|all| - 1] == entries[n].network + ":" + entries[n].value;
      assert all[..|all| - 1] == [default] + Segments(entries[..n]);
      LastMatchOfEntries(default, entries[..n], network);
    }
  }

  /** Looking up a printed label is map lookup with a default, for every network. */
  lemma LabelRoundTrip(default: string, entries: seq<Entry>, network: string)
    requires Plain(default) && PlainEntries(entries)
    ensures ForNetwork(PrintLabel(default, entries), network) ==
            if network in AsMap(entries) then AsMap(entries)[network] else default
  {
    var all := [default] + Segments(entries);
    forall i | 0 <= i < |all| ensures Free(all[i], '/') {
      if i > 0 {
        SegmentOfEntry(entries[i - 1], network);
      }
    }
    SplitJoin(all, '/');
    LastMatchOfEntries(default, entries, network);
  }

  ghost predicate DistinctNetworks(entries: seq<Entry>) {
    forall i, j :: 0 <= i < j < |entries| ==> entries[i].network != entries[j].network
  }

  /** With distinct networks the map says what each entry says. */
  lemma {:induction false} DistinctEntries(entries: seq<Entry>, i: nat)
    requires DistinctNetworks(entries) && i < |entries|
    ensures entries[i].network in AsMap(entries) && AsMap(entries)[entries[i].network] == entries[i].value
  {
    var n := |entries| - 1;
    if i < n {
      DistinctEntries(entries[..n], i);
    }
  }

  /** A label of name:value segments alone has no default: an unnamed network gets nothing. */
  lemma NoDefault(entries: seq<Entry>, network: string)
    requires |entries| >= 1 && PlainEntries(entries)
    ensures ForNetwork(Join(Segments(entries), '/'), network) ==
            if network in AsMap(entries) then AsMap(entries)[network] else ""
  {
    var segs := Segments(entries);
    forall i | 0 <= i < |segs| ensures Free(segs[i], '/') {
      SegmentOfEntry(entries[i], network);
    }
    SplitJoin(segs, '/');
    LastMatchNoDefault(entries, network);
  }

  lemma {:induction false} LastMatchNoDefault(entries: seq<Entry>, network: string)
    requires PlainEntries(entries)
    ensures LastMatch(Segments(entries), network) ==
            if network in AsMap(entries) then Some(AsMap(entries)[network]) else None
  {
    if entries != [] {
      var n := |entries| - 1;
      SegmentOfEntry(entries[n], network);
      assert Segments(entries)[..n] == Segments(entries[..n]);
      LastMatchNoDefault(entries[..n], network);
    }
  }

  /** A segment with two colons or more applies to nobody. */
  lemma ManyColons(a: string, b: string, c: string, network: string)
    ensures SegmentValue(a + ":" + b + ":" + c, network) == None
  {
    assert a + ":" + b + ":" + c == a + [':'] + (b + [':'] + c);
    SplitConcat(a, b + [':'] + c, ':');
    SplitConcat(b, c, ':');
  }

  /** A slash at the end is an empty default, and the last word. */
  lemma TrailingSlash(text: string, network: string)
    ensures ForNetwork(text + "/", network) == ""
  {
    assert text + "/" == text + ['/'] + "";
    SplitConcat(text, "", '/');
    var segments := Split(text + "/", '/');
    assert segments[|segments| - 1] == "";
    assert SegmentValue("", network) == Some("");
  }

  // -------------------------------------------------------------------------------------
  // Which ACL a container's port gets

  /** The container's own label, if it has one that is not empty, and otherwise the network's default. */
  function PortAcl(own: Option<string>, defaultAcl: string, network: string): string {
    if own.Some? && |own.value| > 0 then ForNetwork(own.value, network)
    else if |defaultAcl| > 0 then ForNetwork(defaultAcl, network)
    else ""
  }

  method ChooseAcl(own: Option<string>, defaultAcl: string, network: string) returns (acl: string)
    ensures acl == PortAcl(own, defaultAcl, network)
  {
    acl := "";
    if own.Some? && |own.value| > 0 {
      acl := GetStrForNetwork(own.value, network);
    } else if |defaultAcl| > 0 {
      acl := GetStrForNetwork(defaultAcl, network);
    }
  }

  lemma PrintedNotEmpty(default: string, entries: seq<Entry>)
    requires default != "" || entries != []
    ensures PrintLabel(default, entries) != ""
  {
    var parts := [default] + Segments(entries);
    if entries != [] {
      assert parts[1..] == Segments(entries);
    }
  }

  /** A container whose label says anything gets what it says for this network, whatever the network's
      own default is. */
  lemma OwnAcl(default: string, entries: seq<Entry>, defaultAcl: string, network: string)
    requires Plain(default) && PlainEntries(entries) && (default != "" || entries != [])
    ensures PortAcl(Some(PrintLabel(default, entries)), defaultAcl, network) ==
            if network in AsMap(entries) then AsMap(entries)[network] else default
  {
    PrintedNotEmpty(default, entries);
    LabelRoundTrip(default, entries, network);
    hide PrintLabel, ForNetwork;
  }

  /** A container without a label, or with an empty one, gets what the network's default says for it. */
  lemma DefaultAcl(own: Option<string>, default: string, entries: seq<Entry>, network: string)
    requires own.None? || own.value == ""
    requires Plain(default) && PlainEntries(entries)
    ensures PortAcl(own, PrintLabel(default, entries), network) ==
            if network in AsMap(entries) then AsMap(entries)[network] else default
  {
    LabelRoundTrip(default, entries, network);
    if default == "" && entries == [] {
      assert AsMap(entries) == map[];
    } else {
      PrintedNotEmpty(default, entries);
    }
    hide PrintLabel, ForNetwork;
  }

  /** A label that names other networks only leaves the container without an ACL on this one: the
      network's default does not step in. */
  lemma LabelHidesDefault(entries: seq<Entry>, defaultAcl: string, network: string)
    requires entries != [] && PlainEntries(entries) && network !in AsMap(entries)
    ensures PortAcl(Some(Join(Segments(entries), '/')), defaultAcl, network) == ""
  {
    NoDefault(entries, network);
    hide ForNetwork;
  }
}
