/**
 The state that the resource manager keeps in step: its own maps, the bridges, the
 controller's interface tables and the iptables rules.  A handler is a script of steps;
 a panic, which the handler recovers from, cuts the script short.
 */
module World {
  import opened Types
  import opened Rules

  /** Where an interface is plugged in.  Interface names are unique across all bridges. */
  datatype Attachment = At(bridge: string, port: nat)

  datatype Mode = Flat | Nat | Routed

  datatype ContainerState = ContainerState(port: nat, hostIP: string)

  datatype Network = Network(
    name: string, bridge: string, vlan: nat, mode: Mode, cidr: string,
    preallocate: nat, defaultAcl: string, natAcl: string, useDhcp: bool,
    near: string, far: string,                  // its end of the mirror or stack link, and the other end
    physical: map<string, Option<nat>>, copro: set<string>,
    containers: map<Id, ContainerState>, externals: map<string, nat>)

  /** What a completed join remembers in OFPorts for the leave that undoes it.  The container's portacl
      label may be missing. */
  datatype Joined = Joined(description: string, portAcl: Option<string>, hostIP: string, gatewayIP: string, maps: seq<PortMap>)

  datatype Reservation = Reservation(port: nat, joined: Option<Joined>)

  /** How the driver was started: without shared bridges, with a mirror bridge, or stacking on
      the datapath named. */
  datatype LinkMode = NoLinks | MirrorLinks | StackLinks(dp: string)

  datatype State = State(
    networks: map<Id, Network>,
    mirrors: map<Id, nat>,
    ofPorts: map<Id, Reservation>,
    cache: map<Id, map<nat, string>>,
    bridges: set<string>,
    ovs: map<string, Attachment>,
    faucet: map<string, map<nat, Iface>>,
    rules: seq<Rule>,
    links: LinkMode)

  function Table(s: State, dp: string): map<nat, Iface> {
    if dp in s.faucet then s.faucet[dp] else map[]
  }

  function UsedPorts(ovs: map<string, Attachment>, bridge: string): set<nat> {
    set name | name in ovs && ovs[name].bridge == bridge :: ovs[name].port
  }

  /** Ports are numbered from 1 and no two interfaces of a bridge share a number. */
  ghost predicate Numbered(ovs: map<string, Attachment>) {
    && (forall name :: name in ovs ==> ovs[name].port >= 1)
    && (forall a, b :: a in ovs && b in ovs && ovs[a] == ovs[b] ==> a == b)
  }

  function WithoutBridge(ovs: map<string, Attachment>, bridge: string): map<string, Attachment> {
    map name | name in ovs && ovs[name].bridge != bridge :: ovs[name]
  }

  function JoinRules(bridge: string, j: Joined): seq<Rule> {
    RulesFor(bridge, j.gatewayIP, j.hostIP, j.maps)
  }

  datatype Step =
    | AddPort(bridge: string, port: nat, name: string)
    | RecordPort(endpoint: Id, port: nat)
    | DelPort(bridge: string, name: string)
    | MergeIfaces(dp: string, ifaces: map<nat, Iface>)
    | DelIface(dp: string, port: nat)
    | DelDp(dp: string)
    | AddRule(rule: Rule)
    | DelRule(rule: Rule)
    | RecordNetwork(id: Id, network: Network, lbPort: nat)
    | RecordExternal(id: Id, name: string, port: nat)
    | Call                                      // a command without effect on these records
    | RecordJoin(id: Id, endpoint: Id, reservation: Reservation)
    | ForgetEndpoint(id: Id, endpoint: Id)
    | DelBridge(bridge: string)
    | ForgetNetwork(id: Id)
    | Panic                                     // a check in the handler itself that fails

  /** Writes to the manager's own maps cannot fail. */
  predicate Infallible(step: Step) {
    step.RecordPort? || step.RecordJoin? || step.ForgetEndpoint? || step.ForgetNetwork?
  }

  /** When the command behind a step succeeds, faults aside. */
  predicate Enabled(s: State, step: Step) {
    match step
    case AddPort(b, p, name) => b in s.bridges && name !in s.ovs && p !in UsedPorts(s.ovs, b)
    case DelPort(b, name) => name in s.ovs && s.ovs[name].bridge == b
    case DelRule(r) => r in s.rules
    case DelBridge(b) => b in s.bridges
    case Panic => false
    case _ => true
  }

  function NoteExternal(networks: map<Id, Network>, n: Id, name: string, port: nat): map<Id, Network> {
    if n !in networks then networks
    else networks[n := networks[n].(externals := networks[n].externals[name := port])]
  }

  function NoteContainer(networks: map<Id, Network>, n: Id, e: Id, r: Reservation): map<Id, Network> {
    if n !in networks || r.joined.None? then networks
    else networks[n := networks[n].(containers := networks[n].containers[e := ContainerState(r.port, r.joined.value.hostIP)])]
  }

  function DropContainer(networks: map<Id, Network>, n: Id, e: Id): map<Id, Network> {
    if n !in networks then networks
    else networks[n := networks[n].(containers := networks[n].containers - {e})]
  }

  function Perform(s: State, step: Step): State {
    match step
    case AddPort(b, p, name) => s.(ovs := s.ovs[name := At(b, p)])
    case RecordPort(e, p) => s.(ofPorts := s.ofPorts[e := Reservation(p, None)])
    case DelPort(b, name) => s.(ovs := s.ovs - {name})
    case MergeIfaces(dp, ifaces) => s.(faucet := s.faucet[dp := Table(s, dp) + ifaces])
    case DelIface(dp, p) => s.(faucet := s.faucet[dp := Table(s, dp) - {p}])
    case DelDp(dp) => s.(faucet := s.faucet - {dp})
    case AddRule(r) => s.(rules := s.rules + [r])
    case DelRule(r) => s.(rules := RemoveFirst(s.rules, r))
    case RecordNetwork(n, net, lb) => s.(mirrors := s.mirrors[n := lb], networks := s.networks[n := net])
    case RecordExternal(n, name, p) => s.(networks := NoteExternal(s.networks, n, name, p))
    case RecordJoin(n, e, r) => s.(ofPorts := s.ofPorts[e := r], networks := NoteContainer(s.networks, n, e, r))
    case ForgetEndpoint(n, e) => s.(ofPorts := s.ofPorts - {e}, networks := DropContainer(s.networks, n, e))
    case DelBridge(b) => s.(bridges := s.bridges - {b}, ovs := WithoutBridge(s.ovs, b))
    case ForgetNetwork(n) => s.(networks := s.networks - {n}, mirrors := s.mirrors - {n})
    case Call => s
    case Panic => s
  }

  /** A fault strikes before the step numbered k of those that can fail, or never. */
  datatype Luck = NoFault | FaultAfter(k: nat)

  datatype Outcome = Outcome(state: State, completed: bool)

  function Exec(s: State, script: seq<Step>, luck: Luck): Outcome
    decreases |script|
  {
    if script == [] then Outcome(s, true)
    else if Infallible(script[0]) then Exec(Perform(s, script[0]), script[1..], luck)
    else if luck == FaultAfter(0) || !Enabled(s, script[0]) then Outcome(s, false)
    else Exec(Perform(s, script[0]), script[1..], Spend(luck))
  }

  function Spend(luck: Luck): Luck {
    if luck.FaultAfter? && luck.k > 0 then FaultAfter(luck.k - 1) else luck
  }

  /** Rules are edited one command at a time. */
  function AddRules(rules: seq<Rule>): (steps: seq<Step>)
    ensures |steps| == |rules|
    ensures forall i :: 0 <= i < |rules| ==> steps[i] == AddRule(rules[i])
  {
    if rules == [] then [] else [AddRule(rules[0])] + AddRules(rules[1..])
  }

  function DelRules(rules: seq<Rule>): (steps: seq<Step>)
    ensures |steps| == |rules|
    ensures forall i :: 0 <= i < |rules| ==> steps[i] == DelRule(rules[i])
  {
    if rules == [] then [] else [DelRule(rules[0])] + DelRules(rules[1..])
  }

  // -------------------------------------------------------------------------------------
  // Running scripts

  lemma ExecCons(s: State, step: Step, rest: seq<Step>, luck: Luck)
    ensures Exec(s, [step] + rest, luck) ==
            if Infallible(step) then Exec(Perform(s, step), rest, luck)
            else if luck == FaultAfter(0) || !Enabled(s, step) then Outcome(s, false)
            else Exec(Perform(s, step), rest, Spend(luck))
  {
    assert ([step] + rest)[1..] == rest;
  }

  lemma ExecCall(s: State, rest: seq<Step>, luck: Luck)
    ensures Exec(s, [Call] + rest, luck) == if luck == FaultAfter(0) then Outcome(s, false) else Exec(s, rest, Spend(luck))
  {
    ExecCons(s, Call, rest, luck);
  }

  lemma ExecNil(s: State, luck: Luck)
    ensures Exec(s, [], luck) == Outcome(s, true)
  {
  }

  lemma ExecAddRule(s: State, r: Rule, rest: seq<Step>)
    ensures Exec(s, [AddRule(r)] + rest, NoFault) == Exec(s.(rules := s.rules + [r]), rest, NoFault)
  {
    hide Exec, Table, WithoutBridge, UsedPorts;
    ExecCons(s, AddRule(r), rest, NoFault);
    assert Perform(s, AddRule(r)) == s.(rules := s.rules + [r]);
  }

  lemma ExecDelRule(s: State, r: Rule, rest: seq<Step>)
    requires r in s.rules
    ensures Exec(s, [DelRule(r)] + rest, NoFault) == Exec(s.(rules := RemoveFirst(s.rules, r)), rest, NoFault)
  {
    hide Exec, Table, WithoutBridge, UsedPorts, RemoveFirst;
    ExecCons(s, DelRule(r), rest, NoFault);
    assert Perform(s, DelRule(r)) == s.(rules := RemoveFirst(s.rules, r));
  }

  /** Adding rules never fails of itself, and appends them in order. */
  lemma {:induction false} ExecAddRules(s: State, rules: seq<Rule>, rest: seq<Step>)
    ensures Exec(s, AddRules(rules) + rest, NoFault) == Exec(s.(rules := s.rules + rules), rest, NoFault)
    decreases |rules|
  {
    hide Exec, Perform, Enabled;
    if rules == [] {
      assert AddRules(rules) + rest == rest;
      assert s.rules + rules == s.rules;
    } else {
      AddRulesHead(rules, rest);
      hide AddRules;
      var more := AddRules(rules[1..]) + rest;
      ExecAddRule(s, rules[0], more);
      ExecAddRules(s.(rules := s.rules + [rules[0]]), rules[1..], rest);
      Regroup(s.rules, rules);
    }
  }

  lemma AddRulesHead(rules: seq<Rule>, rest: seq<Step>)
    requires rules != []
    ensures AddRules(rules) + rest == [AddRule(rules[0])] + (AddRules(rules[1..]) + rest)
  {
  }

  lemma Regroup(all: seq<Rule>, rules: seq<Rule>)
    requires rules != []
    ensures all + [rules[0]] + rules[1..] == all + rules
  {
  }

  lemma TakeOne(all: seq<Rule>, rules: seq<Rule>)
    requires rules != [] && multiset(rules) <= multiset(all)
    ensures rules[0] in all
    ensures multiset(rules[1..]) <= multiset(RemoveFirst(all, rules[0]))
  {
    assert rules == [rules[0]] + rules[1..];
    assert rules[0] in multiset(rules);
    RemoveFirstCount(all, rules[0]);
  }

  /** Deleting rules that are all there finds every one of them. */
  lemma {:induction false} ExecDelRules(s: State, rules: seq<Rule>, rest: seq<Step>)
    requires multiset(rules) <= multiset(s.rules)
    ensures Exec(s, DelRules(rules) + rest, NoFault) == Exec(s.(rules := RemoveEach(s.rules, rules)), rest, NoFault)
    decreases |rules|
  {
    hide Exec, Perform, Enabled, RemoveFirst;
    if rules == [] {
      assert DelRules(rules) + rest == rest;
    } else {
      assert DelRules(rules) + rest == [DelRule(rules[0])] + (DelRules(rules[1..]) + rest);
      hide DelRules;
      TakeOne(s.rules, rules);
      ExecDelRule(s, rules[0], DelRules(rules[1..]) + rest);
      ExecDelRules(s.(rules := RemoveFirst(s.rules, rules[0])), rules[1..], rest);
    }
  }
}
