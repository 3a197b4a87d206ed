/**
 The reconciler compares each successful scrape of a bridge with the cached one and edits
 the controller's interface table and the ExternalPorts map by the difference.  The
 reference it is held to is recomputation from the last scrape alone.
 */
module Reconciler {
  import opened Types
  import opened Ports

  type PortDesc = map<nat, string>

  /** What the reconciler knows about a network: its mirror loopback port, the names of the
      ports given at creation, the VLAN for what it adds, and the name under which a gateway
      was noted at creation, if it has one. */
  datatype Settings = Settings(lbPort: nat, creation: set<string>, vlan: nat, gateway: Option<string>)

  datatype View = View(cache: Option<PortDesc>, table: map<nat, Iface>, externals: map<string, nat>)

  predicate Addable(c: Settings, port: nat, desc: string) {
    && port != OF_PORT_LOCAL
    && port != c.lbPort
    && !IsContainerPort(desc)
    && !(PATCH_PREFIX <= desc)
    && desc !in c.creation
  }

  predicate Gone(cached: PortDesc, scraped: PortDesc, port: nat) {
    port in cached && port !in scraped && !IsContainerPort(cached[port])
  }

  function GonePorts(cached: PortDesc, scraped: PortDesc): set<nat> {
    set p | p in cached && Gone(cached, scraped, p)
  }

  function GoneNames(cached: PortDesc, scraped: PortDesc): set<string> {
    set p | p in cached && Gone(cached, scraped, p) :: cached[p]
  }

  predicate Wants(c: Settings, scraped: PortDesc, port: nat) {
    port in scraped && Addable(c, port, scraped[port])
  }

  /** Recomputation from scratch: the interfaces a scrape calls for. */
  function WantedIfaces(c: Settings, scraped: PortDesc): map<nat, Iface> {
    map p | p in scraped && Wants(c, scraped, p) :: Physical(scraped[p], c.vlan)
  }

  /** Interface names are unique on a host, so no two ports of a scrape share one. */
  ghost predicate Injective(scraped: PortDesc) {
    forall p, q :: p in scraped && q in scraped && scraped[p] == scraped[q] ==> p == q
  }

  ghost predicate WantsName(c: Settings, scraped: PortDesc, desc: string) {
    exists p :: Wants(c, scraped, p) && scraped[p] == desc
  }

  ghost function PortNamed(c: Settings, scraped: PortDesc, desc: string): (p: nat)
    requires WantsName(c, scraped, desc)
    ensures Wants(c, scraped, p) && scraped[p] == desc
  {
    var p :| Wants(c, scraped, p) && scraped[p] == desc;
    p
  }

  /** Recomputation from scratch of the ExternalPorts map. */
  ghost function WantedExternals(c: Settings, scraped: PortDesc): map<string, nat> {
    map desc | desc in scraped.Values && WantsName(c, scraped, desc) :: PortNamed(c, scraped, desc)
  }

  function CachedOr(cache: Option<PortDesc>): PortDesc {
    if cache.Some? then cache.value else map[]
  }

  /** One pass over one network; None is a scrape that failed. */
  ghost function Pass(c: Settings, v: View, scrape: Option<PortDesc>): View {
    if scrape.None? || scrape == v.cache then v
    else
      var cached, scraped := CachedOr(v.cache), scrape.value;
      View(scrape,
           (v.table - GonePorts(cached, scraped)) + WantedIfaces(c, scraped),
           (v.externals - GoneNames(cached, scraped)) + WantedExternals(c, scraped))
  }

  /** The ports that are not the driver's own: neither the local port nor the mirror loopback port,
      under a name without the driver's prefix that was not given at creation. */
  lemma AddableIff(c: Settings, port: nat, desc: string)
    ensures Addable(c, port, desc) <==>
            port != OF_PORT_LOCAL && port != c.lbPort && !("ods" <= desc) && desc !in c.creation
  {
    if IsContainerPort(desc) {
      assert "ods" == "odsve"[..3] == desc[..5][..3] == desc[..3];
    }
  }

  lemma WantedIffs(c: Settings, scraped: PortDesc)
    ensures forall p :: p in WantedIfaces(c, scraped) <==>
              && p in scraped && p != OF_PORT_LOCAL && p != c.lbPort
              && !("ods" <= scraped[p]) && scraped[p] !in c.creation
    ensures forall p :: p in WantedIfaces(c, scraped) ==> WantedIfaces(c, scraped)[p] == Physical(scraped[p], c.vlan)
  {
    forall p | p in scraped
      ensures Addable(c, p, scraped[p]) <==>
              p != OF_PORT_LOCAL && p != c.lbPort && !("ods" <= scraped[p]) && scraped[p] !in c.creation
    {
      AddableIff(c, p, scraped[p]);
    }
  }

  lemma WantedExternalsIff(c: Settings, scraped: PortDesc, p: nat)
    requires Injective(scraped) && p in scraped
    ensures scraped[p] in WantedExternals(c, scraped) <==>
            p != OF_PORT_LOCAL && p != c.lbPort && !("ods" <= scraped[p]) && scraped[p] !in c.creation
    ensures scraped[p] in WantedExternals(c, scraped) ==> WantedExternals(c, scraped)[scraped[p]] == p
  {
    AddableIff(c, p, scraped[p]);
    hide Addable;
    assert Wants(c, scraped, p) ==> WantsName(c, scraped, scraped[p]);
    if WantsName(c, scraped, scraped[p]) {
      assert PortNamed(c, scraped, scraped[p]) == p;
    }
  }

  // -------------------------------------------------------------------------------------
  // The loops

  method RemoveGone(cached: PortDesc, scraped: PortDesc, table0: map<nat, Iface>, externals0: map<string, nat>)
    returns (table: map<nat, Iface>, externals: map<string, nat>)
    ensures table == table0 - GonePorts(cached, scraped)
    ensures externals == externals0 - GoneNames(cached, scraped)
  {
    table, externals := table0, externals0;
    var rest := cached.Keys;
    ghost var ports: set<nat>, names: set<string> := {}, {};
    while rest != {}
      invariant rest <= cached.Keys
      invariant ports == set p | p in cached && p !in rest && Gone(cached, scraped, p)
      invariant names == set p | p in cached && p !in rest && Gone(cached, scraped, p) :: cached[p]
      invariant table == table0 - ports && externals == externals0 - names
      decreases rest
    {
      var port :| port in rest;
      rest := rest - {port};
      if port in scraped {
        continue;
      }
      if IsContainerPort(cached[port]) {
        continue;
      }
      table := table - {port};
      externals := externals - {cached[port]};
      ports, names := ports + {port}, names + {cached[port]};
    }
    assert ports == GonePorts(cached, scraped);
    assert names == GoneNames(cached, scraped);
  }

  /** Every port already visited is added if it is wanted, and nothing else is. */
  ghost predicate AddedSoFar(c: Settings, scraped: PortDesc, rest: set<nat>, ifaces: map<nat, Iface>, added: map<string, nat>) {
    && (forall p :: p in ifaces ==> p !in rest && Wants(c, scraped, p) && ifaces[p] == Physical(scraped[p], c.vlan))
    && (forall p :: p in scraped && p !in rest && Wants(c, scraped, p) ==> p in ifaces && scraped[p] in added)
    && (forall d :: d in added ==> Wants(c, scraped, added[d]) && scraped[added[d]] == d)
  }

  lemma AddOne(c: Settings, scraped: PortDesc, rest: set<nat>, port: nat, ifaces: map<nat, Iface>, added: map<string, nat>)
    requires AddedSoFar(c, scraped, rest, ifaces, added) && port in rest && Wants(c, scraped, port)
    ensures AddedSoFar(c, scraped, rest - {port}, ifaces[port := Physical(scraped[port], c.vlan)], added[scraped[port] := port])
  {
  }

  lemma SkipOne(c: Settings, scraped: PortDesc, rest: set<nat>, port: nat, ifaces: map<nat, Iface>, added: map<string, nat>)
    requires AddedSoFar(c, scraped, rest, ifaces, added) && port in rest && !Wants(c, scraped, port)
    ensures AddedSoFar(c, scraped, rest - {port}, ifaces, added)
  {
  }

  method AddWanted(c: Settings, scraped: PortDesc, externals0: map<string, nat>)
    returns (addInterfaces: map<nat, Iface>, externals: map<string, nat>)
    requires Injective(scraped)
    ensures addInterfaces == WantedIfaces(c, scraped)
    ensures forall p :: p in addInterfaces <==>
              && p in scraped && p != OF_PORT_LOCAL && p != c.lbPort
              && !("ods" <= scraped[p]) && scraped[p] !in c.creation
    ensures forall p :: p in addInterfaces ==> addInterfaces[p] == Physical(scraped[p], c.vlan)
    ensures externals == externals0 + WantedExternals(c, scraped)
    ensures forall p :: p in addInterfaces ==> scraped[p] in externals && externals[scraped[p]] == p
  {
    addInterfaces, externals := map[], externals0;
    var rest := scraped.Keys;
    ghost var added: map<string, nat> := map[];
    assert AddedSoFar(c, scraped, rest, addInterfaces, added);
    hide AddedSoFar, Injective, WantedIfaces, WantedExternals, WantsName, PortNamed;
    while rest != {}
      invariant rest <= scraped.Keys
      invariant AddedSoFar(c, scraped, rest, addInterfaces, added)
      invariant externals == externals0 + added
      decreases rest
    {
      var port :| port in rest;
      var desc := scraped[port];
      if !Addable(c, port, desc) {
        SkipOne(c, scraped, rest, port, addInterfaces, added);
      } else {
        AddOne(c, scraped, rest, port, addInterfaces, added);
      }
      rest := rest - {port};
      if port == OF_PORT_LOCAL || port == c.lbPort {
        continue;
      }
      if IsContainerPort(desc) || PATCH_PREFIX <= desc {
        continue;
      }
      if desc in c.creation {
        continue;
      }
      addInterfaces := addInterfaces[port := Physical(desc, c.vlan)];
      externals := externals[desc := port];
      added := added[desc := port];
    }
    AddedAll(c, scraped, addInterfaces, added);
    WantedIffs(c, scraped);
    forall p | p in addInterfaces ensures scraped[p] in added && added[scraped[p]] == p {
      WantedExternalsIff(c, scraped, p);
    }
  }

  lemma AddedAll(c: Settings, scraped: PortDesc, ifaces: map<nat, Iface>, added: map<string, nat>)
    requires Injective(scraped) && AddedSoFar(c, scraped, {}, ifaces, added)
    ensures ifaces == WantedIfaces(c, scraped) && added == WantedExternals(c, scraped)
  {
    hide WantedExternals, Injective;
    AddedIsWanted(c, scraped, added);
  }

  lemma AddedIsWanted(c: Settings, scraped: PortDesc, added: map<string, nat>)
    requires Injective(scraped)
    requires forall p :: Wants(c, scraped, p) ==> scraped[p] in added
    requires forall d :: d in added ==> Wants(c, scraped, added[d]) && scraped[added[d]] == d
    ensures added == WantedExternals(c, scraped)
  {
    var w := WantedExternals(c, scraped);
    forall d ensures d in added <==> d in w {
      if d in added { assert Wants(c, scraped, added[d]); }
    }
    forall d | d in added ensures added[d] == w[d] {
      assert scraped[w[d]] == d == scraped[added[d]];
    }
  }

  lemma NoneGone(scraped: PortDesc)
    ensures GonePorts(map[], scraped) == {} && GoneNames(map[], scraped) == {}
  {
  }

  method ReconcileNetwork(c: Settings, v: View, scrape: Option<PortDesc>) returns (v': View)
    requires scrape.Some? ==> Injective(scrape.value)
    ensures v' == Pass(c, v, scrape)
    ensures scrape.Some? ==> v'.cache == scrape
    ensures scrape.None? || scrape == v.cache ==> v' == v
    ensures scrape.Some? && scrape != v.cache ==> forall p ::
              var cached, scraped := CachedOr(v.cache), scrape.value;
              if p in scraped && p != OF_PORT_LOCAL && p != c.lbPort && !("ods" <= scraped[p]) && scraped[p] !in c.creation
              then p in v'.table && v'.table[p] == Physical(scraped[p], c.vlan)
              else if p in cached && p !in scraped && !("odsve" <= cached[p]) then p !in v'.table
              else (p in v'.table <==> p in v.table) && (p in v.table ==> v'.table[p] == v.table[p])
  {
    hide GonePorts, GoneNames, WantedIfaces, WantedExternals, Injective;
    if scrape.None? {
      return v;
    }
    var scraped := scrape.value;
    var table, externals := v.table, v.externals;
    if v.cache.Some? {
      if scraped == v.cache.value {
        return v;
      }
      table, externals := RemoveGone(v.cache.value, scraped, table, externals);
    } else {
      NoneGone(scraped);
      assert table - {} == table && externals - {} == externals;
    }
    var addInterfaces;
    addInterfaces, externals := AddWanted(c, scraped, externals);
    table := table + addInterfaces;
    v' := View(Some(scraped), table, externals);
    hide Pass;
    forall p { PassEntry(c, v, scraped, p); }
  }

  // -------------------------------------------------------------------------------------
  // Refinement: the incremental table against recomputation

  /** Interfaces the reconciler is responsible for: physical ones not named at creation. */
  ghost function External(c: Settings, table: map<nat, Iface>): map<nat, Iface> {
    map p | p in table && table[p].Physical? && table[p].name !in c.creation :: table[p]
  }

  ghost predicate TableSynced(c: Settings, v: View) {
    External(c, v.table) == WantedIfaces(c, CachedOr(v.cache))
  }

  /** A number that held a port the reconciler added now holds one it ignores. */
  ghost predicate Demoted(c: Settings, cached: PortDesc, scraped: PortDesc, port: nat) {
    Wants(c, cached, port) && port in scraped && !Wants(c, scraped, port)
  }

  ghost predicate NoDemotion(c: Settings, cache: Option<PortDesc>, scrape: Option<PortDesc>) {
    scrape.Some? ==> forall p :: !Demoted(c, CachedOr(cache), scrape.value, p)
  }

  /** What a pass that sees a change does to a single number. */
  lemma PassAt(c: Settings, v: View, scraped: PortDesc, p: nat)
    requires v.cache != Some(scraped)
    ensures var t' := Pass(c, v, Some(scraped)).table;
            if Wants(c, scraped, p) then p in t' && t'[p] == Physical(scraped[p], c.vlan)
            else if Gone(CachedOr(v.cache), scraped, p) then p !in t'
            else (p in t' <==> p in v.table) && (p in t' ==> t'[p] == v.table[p])
  {
  }

  /** One pass keeps the table equal to recomputation exactly when no number is demoted. */
  lemma PassTableSyncedIff(c: Settings, v: View, scrape: Option<PortDesc>)
    requires TableSynced(c, v)
    ensures TableSynced(c, Pass(c, v, scrape)) <==> NoDemotion(c, v.cache, scrape)
  {
    if scrape.Some? && scrape != v.cache {
      var cached, scraped := CachedOr(v.cache), scrape.value;
      var v' := Pass(c, v, scrape);
      var before, after := External(c, v.table), External(c, v'.table);
      var want := WantedIfaces(c, scraped);
      assert forall p :: p in before <==> Wants(c, cached, p);
      forall p ensures p in after <==> Wants(c, scraped, p) || Demoted(c, cached, scraped, p) {
        PassAt(c, v, scraped, p);
        assert p in before <==> Wants(c, cached, p);
        assert p in before <==> p in v.table && v.table[p].Physical? && v.table[p].name !in c.creation;
        assert p in after <==> p in v'.table && v'.table[p].Physical? && v'.table[p].name !in c.creation;
      }
      forall p | p in want ensures p in after && after[p] == want[p] {
      }
      if p :| Demoted(c, cached, scraped, p) {
        assert p in after && p !in want;
      } else {
        assert after.Keys == want.Keys;
      }
    }
  }

  ghost function Run(c: Settings, v: View, scrapes: seq<Option<PortDesc>>): View
    decreases |scrapes|
  {
    if scrapes == [] then v else Run(c, Pass(c, v, scrapes[0]), scrapes[1..])
  }

  /** The scrape the cache holds after a run: the last one that succeeded. */
  function LastScrape(cache: Option<PortDesc>, scrapes: seq<Option<PortDesc>>): Option<PortDesc>
    decreases |scrapes|
  {
    if scrapes == [] then cache
    else LastScrape(if scrapes[0].Some? then scrapes[0] else cache, scrapes[1..])
  }

  ghost predicate NeverDemoted(c: Settings, cache: Option<PortDesc>, scrapes: seq<Option<PortDesc>>)
    decreases |scrapes|
  {
    scrapes != [] ==>
      && NoDemotion(c, cache, scrapes[0])
      && NeverDemoted(c, if scrapes[0].Some? then scrapes[0] else cache, scrapes[1..])
  }

  /** The table agrees with recomputation now and after every scrape to come. */
  ghost predicate AlwaysSynced(c: Settings, v: View, scrapes: seq<Option<PortDesc>>)
    decreases |scrapes|
  {
    TableSynced(c, v) && (scrapes != [] ==> AlwaysSynced(c, Pass(c, v, scrapes[0]), scrapes[1..]))
  }

  lemma PassCache(c: Settings, v: View, scrape: Option<PortDesc>)
    ensures Pass(c, v, scrape).cache == if scrape.Some? then scrape else v.cache
  {
  }

  /** Over every sequence of scrapes: the table agrees with recomputation after every one of
      them exactly when no number was ever demoted. */
  lemma {:induction false} SyncedThroughoutIff(c: Settings, v: View, scrapes: seq<Option<PortDesc>>)
    requires TableSynced(c, v)
    ensures AlwaysSynced(c, v, scrapes) <==> NeverDemoted(c, v.cache, scrapes)
    ensures AlwaysSynced(c, v, scrapes) ==> TableSynced(c, Run(c, v, scrapes))
    decreases |scrapes|
  {
    hide TableSynced, NoDemotion;
    if scrapes != [] {
      PassTableSyncedIff(c, v, scrapes[0]);
      PassCache(c, v, scrapes[0]);
      hide Pass;
      if TableSynced(c, Pass(c, v, scrapes[0])) {
        SyncedThroughoutIff(c, Pass(c, v, scrapes[0]), scrapes[1..]);
      }
    }
  }

  /** The refinement theorem: from no external entries, any sequence of scrapes, failed ones
      included, leaves exactly what the last successful scrape calls for; and one more pass
      over the same scrape changes nothing. */
  lemma {:induction false} RefinesRecomputation(c: Settings, v: View, scrapes: seq<Option<PortDesc>>)
    requires v.cache.None? && External(c, v.table) == map[]
    requires NeverDemoted(c, None, scrapes)
    ensures var v' := Run(c, v, scrapes);
            var last := LastScrape(None, scrapes);
            && v'.cache == last
            && External(c, v'.table) == WantedIfaces(c, CachedOr(last))
            && Pass(c, v', last) == v'
  {
    assert WantedIfaces(c, map[]) == map[];
    SyncedThroughoutIff(c, v, scrapes);
    RunCache(c, v, scrapes);
  }

  lemma {:induction false} RunCache(c: Settings, v: View, scrapes: seq<Option<PortDesc>>)
    ensures Run(c, v, scrapes).cache == LastScrape(v.cache, scrapes)
    decreases |scrapes|
  {
    if scrapes != [] {
      PassCache(c, v, scrapes[0]);
      RunCache(c, Pass(c, v, scrapes[0]), scrapes[1..]);
    }
  }

  // -------------------------------------------------------------------------------------
  // Refinement: the ExternalPorts map

  /** Entries the reconciler is responsible for: neither ports named at creation nor the gateway. */
  ghost function OwnExternals(c: Settings, externals: map<string, nat>): map<string, nat> {
    map d | d in externals && d !in c.creation && Some(d) != c.gateway :: externals[d]
  }

  ghost predicate ExternalsSynced(c: Settings, v: View) {
    OwnExternals(c, v.externals) == OwnExternals(c, WantedExternals(c, CachedOr(v.cache)))
  }

  /** A number kept its place but dropped a name that no wanted port carries any more. */
  ghost predicate NameLost(c: Settings, cached: PortDesc, scraped: PortDesc, port: nat) {
    && Wants(c, cached, port) && port in scraped && Some(cached[port]) != c.gateway
    && !WantsName(c, scraped, cached[port])
  }

  ghost predicate NoNameLost(c: Settings, cache: Option<PortDesc>, scrape: Option<PortDesc>) {
    scrape.Some? ==> forall p :: !NameLost(c, CachedOr(cache), scrape.value, p)
  }

  lemma WantedExternalsKeys(c: Settings, scraped: PortDesc)
    ensures forall d :: d in WantedExternals(c, scraped) <==> WantsName(c, scraped, d)
  {
  }

  /** What a pass that sees a change does to a single name. */
  lemma PassName(c: Settings, v: View, scraped: PortDesc, d: string)
    requires v.cache != Some(scraped)
    ensures var x, want := Pass(c, v, Some(scraped)).externals, WantedExternals(c, scraped);
            if WantsName(c, scraped, d) then d in want && d in x && x[d] == want[d]
            else d !in want && (d in x <==> d in v.externals && d !in GoneNames(CachedOr(v.cache), scraped))
  {
    WantedExternalsKeys(c, scraped);
    hide WantedExternals, GoneNames, WantsName;
  }

  /** A name in step with the cache stays behind wrongly exactly when it is lost in place. */
  lemma NameStaysIff(c: Settings, cached: PortDesc, scraped: PortDesc, d: string)
    requires Injective(cached) && WantsName(c, cached, d) && !WantsName(c, scraped, d) && Some(d) != c.gateway
    ensures d !in GoneNames(cached, scraped) <==> NameLost(c, cached, scraped, PortNamed(c, cached, d))
  {
    var q := PortNamed(c, cached, d);
    if d in GoneNames(cached, scraped) {
      var p :| p in cached && Gone(cached, scraped, p) && cached[p] == d;
      assert p == q;
    }
    assert Gone(cached, scraped, q) ==> cached[q] in GoneNames(cached, scraped);
  }

  /** One pass keeps ExternalPorts equal to recomputation exactly when no name is lost in place. */
  lemma PassExternalsSyncedIff(c: Settings, v: View, scrape: Option<PortDesc>)
    requires ExternalsSynced(c, v) && Injective(CachedOr(v.cache))
    ensures ExternalsSynced(c, Pass(c, v, scrape)) <==> NoNameLost(c, v.cache, scrape)
  {
    if scrape.Some? && scrape == v.cache {
      var cached := CachedOr(v.cache);
      assert forall p :: Wants(c, cached, p) ==> WantsName(c, cached, cached[p]);
    } else if scrape.Some? {
      PassExternalsChanged(c, v, scrape.value);
    }
  }

  lemma PassExternalsChanged(c: Settings, v: View, scraped: PortDesc)
    requires ExternalsSynced(c, v) && Injective(CachedOr(v.cache)) && v.cache != Some(scraped)
    ensures ExternalsSynced(c, Pass(c, v, Some(scraped))) <==> NoNameLost(c, v.cache, Some(scraped))
  {
    var cached, v' := CachedOr(v.cache), Pass(c, v, Some(scraped));
    var before, after := OwnExternals(c, v.externals), OwnExternals(c, v'.externals);
    var want := OwnExternals(c, WantedExternals(c, scraped));
    WantedExternalsKeys(c, cached);
    WantedExternalsKeys(c, scraped);
    forall d ensures d in want ==> d in after && after[d] == want[d] {
      PassName(c, v, scraped, d);
    }
    if p :| NameLost(c, cached, scraped, p) {
      var d := cached[p];
      assert WantsName(c, cached, d);
      assert PortNamed(c, cached, d) == p;
      NameStaysIff(c, cached, scraped, d);
      PassName(c, v, scraped, d);
      assert d in before;
      assert d in after && d !in want;
    } else {
      forall d ensures d in after ==> d in want {
        PassName(c, v, scraped, d);
        if d in after && d !in want {
          assert d in before;
          NameStaysIff(c, cached, scraped, d);
          assert false;
        }
      }
      assert after == want;
    }
  }

  /** ExternalPorts agrees with recomputation now and after every scrape to come. */
  ghost predicate ExternalsAlwaysSynced(c: Settings, v: View, scrapes: seq<Option<PortDesc>>)
    decreases |scrapes|
  {
    ExternalsSynced(c, v) && (scrapes != [] ==> ExternalsAlwaysSynced(c, Pass(c, v, scrapes[0]), scrapes[1..]))
  }

  ghost predicate NameNeverLost(c: Settings, cache: Option<PortDesc>, scrapes: seq<Option<PortDesc>>)
    decreases |scrapes|
  {
    scrapes != [] ==>
      && NoNameLost(c, cache, scrapes[0])
      && NameNeverLost(c, if scrapes[0].Some? then scrapes[0] else cache, scrapes[1..])
  }

  /** A bridge's ports have different names. */
  ghost predicate AllInjective(scrapes: seq<Option<PortDesc>>) {
    forall s :: s in scrapes && s.Some? ==> Injective(s.value)
  }

  /** Over every sequence of scrapes: ExternalPorts agrees with recomputation after every one of
      them exactly when no name was ever lost in place. */
  lemma {:induction false} ExternalsThroughoutIff(c: Settings, v: View, scrapes: seq<Option<PortDesc>>)
    requires ExternalsSynced(c, v) && Injective(CachedOr(v.cache)) && AllInjective(scrapes)
    ensures ExternalsAlwaysSynced(c, v, scrapes) <==> NameNeverLost(c, v.cache, scrapes)
    ensures ExternalsAlwaysSynced(c, v, scrapes) ==> ExternalsSynced(c, Run(c, v, scrapes))
    decreases |scrapes|
  {
    hide ExternalsSynced, NoNameLost;
    if scrapes != [] {
      PassExternalsSyncedIff(c, v, scrapes[0]);
      PassCache(c, v, scrapes[0]);
      hide Pass;
      assert scrapes[0] in scrapes;
      if ExternalsSynced(c, Pass(c, v, scrapes[0])) {
        ExternalsThroughoutIff(c, Pass(c, v, scrapes[0]), scrapes[1..]);
      }
    }
  }

  /** No number changes name from one successful scrape to the next. */
  ghost predicate NamesStable(cache: Option<PortDesc>, scrapes: seq<Option<PortDesc>>)
    decreases |scrapes|
  {
    scrapes != [] ==>
      && (scrapes[0].Some? ==> forall p :: p in CachedOr(cache) && p in scrapes[0].value ==> scrapes[0].value[p] == CachedOr(cache)[p])
      && NamesStable(if scrapes[0].Some? then scrapes[0] else cache, scrapes[1..])
  }

  lemma {:induction false} StableNamesNotLost(c: Settings, cache: Option<PortDesc>, scrapes: seq<Option<PortDesc>>)
    requires NamesStable(cache, scrapes)
    ensures NameNeverLost(c, cache, scrapes)
    decreases |scrapes|
  {
    if scrapes != [] {
      if scrapes[0].Some? {
        var cached, scraped := CachedOr(cache), scrapes[0].value;
        forall p ensures !NameLost(c, cached, scraped, p) {
          if Wants(c, cached, p) && p in scraped {
            assert Wants(c, scraped, p);
          }
        }
      }
      StableNamesNotLost(c, if scrapes[0].Some? then scrapes[0] else cache, scrapes[1..]);
    }
  }

  /** From no entries of its own, any sequence of scrapes in which no number changes name leaves
      exactly the names of the last successful scrape's external ports, at their numbers. */
  lemma StableNamesSync(c: Settings, v: View, scrapes: seq<Option<PortDesc>>)
    requires v.cache.None? && OwnExternals(c, v.externals) == map[] && AllInjective(scrapes) && NamesStable(None, scrapes)
    ensures var last := CachedOr(LastScrape(None, scrapes));
            OwnExternals(c, Run(c, v, scrapes).externals) == OwnExternals(c, WantedExternals(c, last))
  {
    WantedExternalsKeys(c, map[]);
    assert OwnExternals(c, WantedExternals(c, map[])) == map[];
    StableNamesNotLost(c, None, scrapes);
    ExternalsThroughoutIff(c, v, scrapes);
    RunCache(c, v, scrapes);
  }

  // -------------------------------------------------------------------------------------
  // What a pass leaves alone, and what it loses

  /** A number that currently carries a container port is neither deleted nor overwritten,
      whatever the cached scrape says about it. */
  lemma PassSparesContainers(c: Settings, v: View, scraped: PortDesc, port: nat)
    requires port in scraped && IsContainerPort(scraped[port])
    ensures var v' := Pass(c, v, Some(scraped));
            (port in v'.table <==> port in v.table) && (port in v.table ==> v'.table[port] == v.table[port])
  {
  }

  /** A pass never writes a container interface. */
  lemma PassAddsNoContainer(c: Settings, v: View, scrape: Option<PortDesc>, port: nat)
    requires port in Pass(c, v, scrape).table && Pass(c, v, scrape).table[port].Container?
    ensures port in v.table && v.table[port] == Pass(c, v, scrape).table[port]
  {
  }

  /** A number at which only ignored names are ever seen is not added. */
  lemma {:induction false} IgnoredStaysAbsent(c: Settings, v: View, scrapes: seq<Option<PortDesc>>, port: nat)
    requires port !in v.table
    requires forall s :: s in scrapes && s.Some? && port in s.value ==>
               port == OF_PORT_LOCAL || port == c.lbPort || "ods" <= s.value[port] || s.value[port] in c.creation
    ensures port !in Run(c, v, scrapes).table
    decreases |scrapes|
  {
    if scrapes != [] {
      assert scrapes[0] in scrapes;
      if scrapes[0].Some? && scrapes[0] != v.cache {
        PassEntry(c, v, scrapes[0].value, port);
      }
      hide Pass;
      IgnoredStaysAbsent(c, Pass(c, v, scrapes[0]), scrapes[1..], port);
    }
  }

  /** Some successful scrape misses the port when the one cached before it showed it. */
  predicate MissedAfterSeen(seen: bool, scrapes: seq<Option<PortDesc>>, port: nat)
    decreases |scrapes|
  {
    scrapes != [] &&
    if scrapes[0].None? then MissedAfterSeen(seen, scrapes[1..], port)
    else (seen && port !in scrapes[0].value) || MissedAfterSeen(port in scrapes[0].value, scrapes[1..], port)
  }

  /** Over every sequence of scrapes that show a creation port at its number or not at all, from any
      cache that does, a fresh one included: it keeps its interface, unchanged, exactly when no
      successful scrape misses it after one showed it. */
  lemma {:induction false} CreationPortKeptIff(c: Settings, v: View, scrapes: seq<Option<PortDesc>>, port: nat, name: string)
    requires name in c.creation && !IsContainerPort(name) && port in v.table
    requires port in CachedOr(v.cache) ==> CachedOr(v.cache)[port] == name
    requires forall s :: s in scrapes && s.Some? && port in s.value ==> s.value[port] == name
    ensures port in Run(c, v, scrapes).table <==> !MissedAfterSeen(port in CachedOr(v.cache), scrapes, port)
    ensures port in Run(c, v, scrapes).table ==> Run(c, v, scrapes).table[port] == v.table[port]
    decreases |scrapes|
  {
    if scrapes != [] {
      assert scrapes[0] in scrapes;
      var v' := Pass(c, v, scrapes[0]);
      PassCache(c, v, scrapes[0]);
      if scrapes[0].Some? && scrapes[0] != v.cache {
        PassAt(c, v, scrapes[0].value, port);
      }
      if scrapes[0].Some? && port in CachedOr(v.cache) && port !in scrapes[0].value {
        IgnoredStaysAbsent(c, v', scrapes[1..], port);
      } else {
        CreationPortKeptIff(c, v', scrapes[1..], port, name);
      }
    }
  }

  /** A port named at creation that disappears from one scrape and is back in the next stays
      out of the controller's table, although it is on the bridge. */
  lemma CreationPortNotRestored(c: Settings, v: View, port: nat, absent: PortDesc, back: PortDesc)
    requires v.cache.Some? && port in v.cache.value && v.cache.value[port] in c.creation
    requires !IsContainerPort(v.cache.value[port])
    requires port !in absent && port in back && back[port] == v.cache.value[port]
    ensures port !in Run(c, v, [Some(absent), Some(back)]).table
  {
    var v1 := Pass(c, v, Some(absent));
    assert Gone(v.cache.value, absent, port);
    assert port !in v1.table;
    assert [Some(absent), Some(back)][1..] == [Some(back)];
    assert Run(c, v1, [Some(back)]) == Run(c, Pass(c, v1, Some(back)), [Some(back)][1..]);
  }

  // -------------------------------------------------------------------------------------
  // The fate of one number, in so many words

  /** A pass that sees a change: a number shown under a name of nobody's gets that port's interface on
      the network's VLAN; one that is missing after it was shown, unless a container was there, is
      deleted; and every other number keeps what it had. */
  lemma PassEntry(c: Settings, v: View, scraped: PortDesc, p: nat)
    requires v.cache != Some(scraped)
    ensures var cached, t' := CachedOr(v.cache), Pass(c, v, Some(scraped)).table;
            if p in scraped && p != OF_PORT_LOCAL && p != c.lbPort && !("ods" <= scraped[p]) && scraped[p] !in c.creation
            then p in t' && t'[p] == Physical(scraped[p], c.vlan)
            else if p in cached && p !in scraped && !("odsve" <= cached[p]) then p !in t'
            else (p in t' <==> p in v.table) && (p in t' ==> t'[p] == v.table[p])
  {
    PassAt(c, v, scraped, p);
    if p in scraped {
      AddableIff(c, p, scraped[p]);
    }
    hide Pass, Addable;
  }

  /** The same for one name of ExternalPorts: a name of nobody's is listed at its number; one that was at
      a number that is gone now, unless it is a container's, is dropped; and every other stays. */
  lemma PassExternal(c: Settings, v: View, scraped: PortDesc, d: string)
    requires v.cache != Some(scraped) && Injective(scraped)
    ensures var cached, x := CachedOr(v.cache), Pass(c, v, Some(scraped)).externals;
            var owned := "ods" <= d || d in c.creation;
            var gone := !("odsve" <= d) && exists q :: q in cached && cached[q] == d && q !in scraped;
            && (forall p :: p in scraped && scraped[p] == d && p != OF_PORT_LOCAL && p != c.lbPort && !owned ==> d in x && x[d] == p)
            && ((forall p :: p in scraped && scraped[p] == d ==> p == OF_PORT_LOCAL || p == c.lbPort || owned) ==>
                  (d in x <==> d in v.externals && !gone) && (d in x ==> x[d] == v.externals[d]))
  {
    PassName(c, v, scraped, d);
    forall p | p in scraped && scraped[p] == d
      ensures d in WantedExternals(c, scraped) <==> p != OF_PORT_LOCAL && p != c.lbPort && !("ods" <= d) && d !in c.creation
      ensures d in WantedExternals(c, scraped) ==> WantedExternals(c, scraped)[d] == p
    {
      WantedExternalsIff(c, scraped, p);
    }
    GoneName(CachedOr(v.cache), scraped, d);
    WantedExternalsKeys(c, scraped);
    hide WantedExternals, WantsName, Injective, Pass, GoneNames;
    assert WantsName(c, scraped, d) ==> exists p :: p in scraped && scraped[p] == d by { NamedSomewhere(c, scraped, d); }
    assert !(exists p :: p in scraped && scraped[p] == d) ==> !WantsName(c, scraped, d);
    if !WantsName(c, scraped, d) && d in Pass(c, v, Some(scraped)).externals {
      KeptValue(c, v, scraped, d);
    }
  }

  lemma NamedSomewhere(c: Settings, scraped: PortDesc, d: string)
    ensures WantsName(c, scraped, d) ==> exists p :: p in scraped && scraped[p] == d
  {
  }

  lemma GoneName(cached: PortDesc, scraped: PortDesc, d: string)
    ensures d in GoneNames(cached, scraped) <==> !("odsve" <= d) && exists q :: q in cached && cached[q] == d && q !in scraped
  {
    if q :| q in cached && cached[q] == d && q !in scraped && !("odsve" <= d) {
      assert Gone(cached, scraped, q);
    }
  }

  lemma KeptValue(c: Settings, v: View, scraped: PortDesc, d: string)
    requires v.cache != Some(scraped) && !WantsName(c, scraped, d) && d in Pass(c, v, Some(scraped)).externals
    ensures d in v.externals && Pass(c, v, Some(scraped)).externals[d] == v.externals[d]
  {
    WantedExternalsKeys(c, scraped);
    hide WantedExternals, WantsName;
  }

  /** Some successful scrape misses a number at which the one cached before it showed a port that is
      not a container's. */
  predicate Vanishes(cache: Option<PortDesc>, scrapes: seq<Option<PortDesc>>, p: nat)
    decreases |scrapes|
  {
    scrapes != [] &&
    if scrapes[0].None? then Vanishes(cache, scrapes[1..], p)
    else
      || (cache.Some? && p in cache.value && !("odsve" <= cache.value[p]) && p !in scrapes[0].value)
      || Vanishes(scrapes[0], scrapes[1..], p)
  }

  /** Over every sequence of scrapes, failed ones included: the local port, the mirror loopback port,
      and any number at which only names with the driver's prefix are seen keep their entries, unchanged,
      exactly if they do not vanish.  Such are the ends of a network's links. */
  lemma {:induction false} DriverPortKeptIff(c: Settings, v: View, scrapes: seq<Option<PortDesc>>, p: nat)
    requires p in v.table
    requires p == OF_PORT_LOCAL || p == c.lbPort || forall s :: s in scrapes && s.Some? && p in s.value ==> "ods" <= s.value[p]
    ensures p in Run(c, v, scrapes).table <==> !Vanishes(v.cache, scrapes, p)
    ensures p in Run(c, v, scrapes).table ==> Run(c, v, scrapes).table[p] == v.table[p]
    decreases |scrapes|
  {
    if scrapes != [] {
      assert scrapes[0] in scrapes;
      var v' := Pass(c, v, scrapes[0]);
      PassCache(c, v, scrapes[0]);
      if scrapes[0].Some? && scrapes[0] != v.cache {
        PassEntry(c, v, scrapes[0].value, p);
      }
      hide Pass;
      if p in v'.table {
        DriverPortKeptIff(c, v', scrapes[1..], p);
      } else {
        IgnoredStaysAbsent(c, v', scrapes[1..], p);
      }
    }
  }

  /** Every number that the cached scrape shows under a name of nobody's has that port's interface. */
  ghost predicate OthersConfigured(c: Settings, v: View) {
    forall p :: p in CachedOr(v.cache) && p != OF_PORT_LOCAL && p != c.lbPort
                && !("ods" <= CachedOr(v.cache)[p]) && CachedOr(v.cache)[p] !in c.creation ==>
      p in v.table && v.table[p] == Physical(CachedOr(v.cache)[p], c.vlan)
  }

  /** And the converse, from a start with nothing cached: after any sequence of scrapes, every other
      name in the last successful one has its interface on the network's VLAN. */
  lemma {:induction false} OthersConfiguredThroughout(c: Settings, v: View, scrapes: seq<Option<PortDesc>>)
    requires OthersConfigured(c, v)
    ensures OthersConfigured(c, Run(c, v, scrapes))
    ensures Run(c, v, scrapes).cache == LastScrape(v.cache, scrapes)
    decreases |scrapes|
  {
    if scrapes != [] {
      var v' := Pass(c, v, scrapes[0]);
      PassCache(c, v, scrapes[0]);
      if scrapes[0].Some? && scrapes[0] != v.cache {
        forall p ensures
          p in scrapes[0].value && p != OF_PORT_LOCAL && p != c.lbPort
          && !("ods" <= scrapes[0].value[p]) && scrapes[0].value[p] !in c.creation ==>
            p in v'.table && v'.table[p] == Physical(scrapes[0].value[p], c.vlan)
        {
          PassEntry(c, v, scrapes[0].value, p);
        }
      }
      hide Pass;
      OthersConfiguredThroughout(c, v', scrapes[1..]);
    }
  }
}
