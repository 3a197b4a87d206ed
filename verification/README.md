# dovesnap, modelled and verified in Dafny

dovesnap is a Docker network driver. One goroutine, the resource manager, takes operations
off a channel and keeps several records of the world in step: its own maps (`networks`,
`stackMirrorConfigs`, `OFPorts`, `AllPortDesc`, each network's `Containers` and
`ExternalPorts`), the ports on the Open vSwitch bridges, the FAUCET controller's
per-datapath interface tables, and the iptables rules. This project models that manager and
the code around it, and proves what holds over whole runs: any interleaving of creates,
reserves, joins, leaves, reconciliations and deletes, over any number of networks and
endpoints, with and without handlers cut short by a panic.

`dafny verify dfyconfig.toml` checks the whole project (Dafny 4.11).

## How the model is laid out

- `Types`, `Text`: identifiers, name prefixes, interface entries; splitting, joining and
  decimal numbers.
- `Ports`: the sort-and-scan allocator as loops, the preallocation window.
- `Rules`: the iptables rules of a port mapping and of a NAT network, kept in the order in which
  the chains are searched.
- `World`: the state and the steps that handlers are made of. `Exec` runs a script of steps;
  `Luck` says before which command, if any, a panic strikes.
- `Handlers`: every handler as a script computed from the state, the operations that are not
  scripts (bridge initialisation, reconciliation, DHCP updates, ports plugged in by an
  administrator), Docker's own record of networks and endpoints, and `Legal`, which says what
  request can arrive when.
- `Agreement`, `NetworkAgreement`, `Conservation`, `FaultFree`: runs without faults.
- `NetworkOptions`, `Creation`, `Restore`: a network's port options, what creation configures, and
  what it misses after a restart.
- `Forwarding`, `RuleOrder`, `Traffic`: which rules are there for whom, in what order, and where
  packets go.
- `Leftovers`: what is left when all networks and endpoints are gone.
- `Faults`, `FaultyRuns`, `FaultyRules`, `LiveRecords`, `Preallocation`: runs with a panic
  possible at any command. `StoppingPoints`: what each handler leaves behind, command by command.
- `Witnesses`: legal runs that reach the failures for which exact conditions are given.
- `Entries`, `WindowEntries`, `LinkEntries`, `Refinement`: one number of one interface table,
  followed through whole runs: its preallocated entry, the entry of a link, and its agreement with
  the cached scrape.
- `Leases`: reconciling DHCP leases as events of a run.
- `ResourceManager`: the manager as a class whose methods update its maps in place; each
  handler is proved to do what its script does, for every place a fault can strike.
- `Reconciler`: the incremental reconciler as loops, and its refinement of recomputation.
- `Protocol`: the WaitGroup, the channel and the request threads as a state machine.
- `Links`: patch links to the shared bridges and the mirror bridge's flows.
- `AddPorts`, `Labels`, `Base62`, `PatchNames`: parsers, label lookup, encodings and names.
- `Bridges`: bridge creation with its roll-back.

The main results are `FaultFree.FaultFreeTheorem`, `LiveRecords.LiveThroughoutIff`,
`FaultyRuns.FaultTheorem` and `FaultyRuns.NumbersMatchThroughoutIff`, `FaultyRules.CoverTheorem`,
`Reconciler.RefinesRecomputation`, `Reconciler.ExternalsThroughoutIff` and
`Refinement.InStepThroughoutIff`, `Preallocation.PreallocationTheorem` and
`WindowEntries.PreallocatedEntryIff`, `RuleOrder.OrderTheorem` and `Traffic.TrafficTheorem`,
`Leftovers.NothingLeftBehind`, `Protocol.CounterTheorem` and `Protocol.WaitSeesEverything`,
`Links.LinksTheorem` and `LinkEntries.LinkEntryTheorem`, `NetworkOptions.OptionsTheorem`, `AddPorts.AddPortsRoundTrip` and `PatchNames.EndsClashIff`.

## What is assumed of the surroundings

- A command (`ovs-vsctl`, `ovs-ofctl`, `iptables`, a FAUCET call) either takes effect or fails
  before taking effect; writes to the manager's own maps cannot fail. What happens when a port
  is plugged in but the command reports failure is shown by `FaultyRuns.JoinAfterLostReserve`.
- An interface name is on one bridge at a time; `ofport_request` is honoured when the number is
  free; bridge ports are numbered from 1; a scrape that succeeds lists exactly the bridge's
  ports.
- Docker issues CreateEndpoint, Join and Leave once each and in that order, and deletes a
  network after its endpoints have left. It never uses an identifier twice, and the identifiers
  of live endpoints differ in the five characters the driver keeps; those of dead endpoints,
  whose reservations a fault may have left behind, need not. Networks have different names and
  bridges.
- Interfaces that are not containers' do not carry the prefix `odsve`. A patch link whose
  encoded hash begins with `ve` would; the driver itself takes such a name for a container's.
- A panic in the periodic reconciliation, or in the bridge initialisation that rebuilding a
  bridge runs, is not recovered and ends the process; so does a failing NAT rule command,
  which is fatal, and a WaitGroup counter below zero. None of them continues a run. A panic in
  the bridge initialisation of a create request is recovered, and the run goes on with the
  bridge taken down again or half built.
- In `RuleOrder` no rule that a join adds is there already when it joins, and in `Traffic` none
  that takes the packet in question: containers have addresses of their own, and the host has no
  such rule. `Traffic.EqualRuleMoves` shows what two equal rules would do.
- CRC-32 is any function to numbers below 2^32. `math.Mod` on operands this small is exact and
  is modelled as integer remainder.
- A later entry for a port number in one FAUCET configuration replaces an earlier one, and a
  merge replaces entries number by number.

## Where the code and its description part

- Validation in `ReOrCreateNetwork` parses without VLANs, so a network with a bad VLAN field is
  accepted and its bridge built, and the handler panics later (`AddPorts.HandlerParsesIff`,
  `AddPorts.UncheckedVlan`).
- Nothing keeps two endpoints from mapping one port of a gateway; only the one joined longest
  is served (`Traffic.TrafficTheorem`, `Traffic.SecondMappingShadowed`).
- The filter rule of a port mapping always says tcp, so a udp mapping is readdressed but not let
  through by it (`Forwarding.ForwardingTheorem`, `Forwarding.UdpNotLetThrough`).
- A port asked for inside the window preallocated at creation loses its interface entry to the
  preallocated one (`Creation.PhysicalConfiguredIff`, `Creation.RequestInsideWindow`).
- A preallocated entry serves one container: it is lost to the first join or leave at its
  number, or to a host port that is scraped there or was and is gone, and nothing preallocates
  it again (`WindowEntries.PreallocatedEntryIff`, `Witnesses.EntrySpent`).
- A network whose mirror port is taken by one of its own ports when its bridge is initialised gets
  its end of the link at another number, and the controller is told the wanted one all the same
  (`LinkEntries.MirrorOutAtEndIff`).
- A portacl label that names other networks only leaves a container without an ACL: the network's
  default does not step in (`Labels.LabelHidesDefault`).
- The allocator is wrong exactly when ports 0 and 1 are both in use
  (`Ports.ScanIsLeastFreeIff`).
- Rebuilding a bridge that is down calls Done twice for one Add
  (`Protocol.RecreateDownGoesNegative`, `Protocol.EarlyReleaseIff`,
  `Protocol.WaiterReleasedEarly`); rebuilding one without an address inserts the NAT rule a
  second time (`FaultFree.RecreateBadBridgeBalancesIff`).
- Networks are restored without their coprocessor ports, which keep whatever entry the
  controller still has at their number and are never configured anew
  (`Restore.RestoredCoproIff`, `Restore.RestoredCoproFateIff`); a port whose number changed when
  its bridge was rebuilt is lost (`Restore.RebuiltCoproLost`).
- A Leave after a join that did not complete leaves its reservation behind
  (`FaultyRuns.StaleReservationIff`, `Leftovers.StaleReservationReached`), and an endpoint that
  shares five characters with it can then disagree with it (`FaultyRuns.SharedNameMismatch`,
  `FaultyRuns.NumbersMatchThroughoutIff`, `Witnesses.SharedNameReached`).
- A network whose deletion failed is still reconciled, under its name; if the name is in use
  again, a pass over what is left can delete a live container's interface
  (`LiveRecords.LiveThroughoutIff`, `LiveRecords.StaleNamesakeHarms`,
  `Witnesses.StaleHarmReached`).
- Deleting a network leaves its cached scrape behind (`Leftovers.CachedIff`,
  `Leftovers.ScrapeOutlivesNetwork`).
- A port named at creation that vanishes and returns is not configured again
  (`Reconciler.CreationPortKeptIff`, `Reconciler.CreationPortNotRestored`). Neither is an external
  port whose number a container used between two equal scrapes
  (`Refinement.InStepThroughoutIff`, `Refinement.EqualScrapesRestoreNothing`,
  `Witnesses.OutOfStepReached`).

## Model

| member | source | states |
|---|---|---|
| `Ports.ScanSorted` | ovs/ovs_port.go:70-77 | counting up over sorted distinct numbers stops at the least positive number not among them, at most one more than how many there are; a 0 stops it at 1 |
| `Ports.CollectPorts` | ovs/ovs_port.go:64-67 | every key exactly once, whatever order the map is visited in |
| `Ports.SortInts` | ovs/ovs_port.go:68 | the numbers come out ascending and as the same multiset |
| `Ports.LowestFreePortOnBridge` | ovs/ovs_port.go:61-78 | the least positive port not in use unless 0 is a key, at most one more than the ports in use, and below the local port for any bridge that is not full |
| `Ports.ScanIsLeastFreeIff` | ovs/ovs_port.go:61-78 | the scan is right if and only if ports 0 and 1 are not both in use |
| `Ports.NextPortInWindowIff` | ovs/driver.go:606-615 | the next port lies in the preallocated window if and only if fewer containers than its size are live |
| `Ports.WindowTheorem` | ovs/driver.go:606-615 | over every run of reserves, leaves and other ports coming and going, every port handed out lies in [f, f+N) |
| `Ports.WindowInOrder` | ovs/driver.go:606-615 | without leaves the ports handed out are f, f+1, f+2, ... |
| `Preallocation.WindowStartsAtScan` | ovs/driver.go:606-615 | on a bridge without containers a window fits if and only if it starts at the first free port and no host port lies in it |
| `Preallocation.WindowConfigured` | ovs/driver.go:606-650 | after creation the controller has, at every number of the window that neither the gateway nor a link has, an entry with the network's VLAN and default ACL |
| `Preallocation.ReserveInWindowIff` | ovs/driver.go:705-716 | on a bridge with a window, a reserve lands in it if and only if fewer containers than its size are plugged in |
| `Preallocation.PreallocationTheorem` | ovs/driver.go:705-716 | over every run of the whole system, faults included, while host ports keep clear of the window, every container on the bridge is at a number of the window after every event if and only if no reserve goes through with as many containers plugged in as the window has numbers |
| `Preallocation.PreallocatedFromCreation` | ovs/driver.go:606-615 | the same from a network's creation on, with the window that creation scanned for and configured |
| `Preallocation.NextInOrder` | ovs/ovs_port.go:61-78 | while the containers fill the window from the left, the next reserve gets the number after them |
| `Preallocation.InOrderTheorem` | ovs/driver.go:705-716 | over every run of the whole system without leaves, faults included, they do, so the numbers handed out are f, f+1, f+2, ... |
| `WindowEntries.PreallocatedEntryIff` | ovs/driver.go:872-876 | over every fault-free run that keeps the network, a preallocated entry is still there if and only if no endpoint has joined or left at its number and no changed scrape called for a host port there or missed one that was cached there |
| `Witnesses.EntrySpent` | ovs/driver.go:872-876 | a legal run from every fresh start: one port preallocated, one container's stay, and the entry is gone |
| `Reconciler.RemoveGone` | ovs/driver.go:949-961 | for any order of visiting: exactly the vanished numbers that were not containers leave the table, and exactly their names leave ExternalPorts |
| `Reconciler.AddWanted` | ovs/driver.go:968-985 | for any order of visiting: an interface is called for exactly at the scraped numbers other than the local and the mirror port whose names neither begin with ods nor were given at creation, on the network's VLAN, and ExternalPorts gets those names at those numbers |
| `Reconciler.ReconcileNetwork` | ovs/driver.go:929-995 | one pass of the loops: without a new scrape nothing changes; otherwise each of those numbers has its port's interface, each number that vanished and was not a container's has none, every other keeps what it had, and the scrape is cached |
| `Reconciler.PassTableSyncedIff` | ovs/driver.go:943-993 | one pass keeps the controller's external interfaces equal to recomputation if and only if no number passes from a port it added to one it ignores |
| `Reconciler.SyncedThroughoutIff` | ovs/driver.go:929-995 | the table equals recomputation after every scrape of a run if and only if that never happens in the run |
| `Reconciler.RefinesRecomputation` | ovs/driver.go:929-995 | from no external entries, after any scrapes, failed ones included, the external interfaces are exactly those the last successful scrape calls for, and a further pass over it changes nothing |
| `Reconciler.PassExternalsSyncedIff` | ovs/driver.go:949-985 | one pass keeps ExternalPorts, leaving out the ports named at creation and the gateway, equal to recomputation if and only if no number that stays gives up a name no wanted port carries any more |
| `Reconciler.ExternalsThroughoutIff` | ovs/driver.go:929-995 | over every sequence of scrapes, failed ones included, ExternalPorts agrees after every one if and only if no name is ever lost in place |
| `Reconciler.StableNamesSync` | ovs/driver.go:929-995 | from no external entries, after any scrapes in which no number changes name, ExternalPorts has exactly the external ports of the last successful one |
| `Reconciler.PassSparesContainers` | ovs/driver.go:949-976 | the interface at a number that now carries a container is neither deleted nor overwritten, whatever the cached scrape had there |
| `Reconciler.PassAddsNoContainer` | ovs/driver.go:966-991 | a pass never writes a container's interface |
| `Reconciler.CreationPortKeptIff` | ovs/driver.go:949-981 | over every sequence of scrapes that show a port named at creation at its number or not at all, from any such cache or none, it keeps its interface, unchanged, if and only if no successful scrape misses it after one showed it |
| `Reconciler.IgnoredStaysAbsent` | ovs/driver.go:968-981 | over every sequence of scrapes a number that is the local or the mirror port, or at which only names with the prefix ods or given at creation are seen, is never added |
| `Reconciler.PassEntry` | ovs/driver.go:949-985 | what a pass that sees a change does to one number: configured, deleted or left alone, each under its exact condition on numbers and names |
| `Reconciler.PassExternal` | ovs/driver.go:949-985 | the same for one name of ExternalPorts |
| `Reconciler.DriverPortKeptIff` | ovs/driver.go:949-976 | over every sequence of scrapes, the local port, the mirror port and every number seen under names with the prefix ods alone keep their entries, unchanged, if and only if no scrape misses a port there that was cached and is not a container's |
| `Reconciler.OthersConfiguredThroughout` | ovs/driver.go:966-993 | the converse: over every sequence of scrapes, every other name in the last successful one that was not given at creation has its interface on the network's VLAN at its number |
| `Reconciler.CreationPortNotRestored` | ovs/driver.go:977-981 | the case in point: missing from one scrape and back in the next, it stays out of the controller's table |
| `Entries.StepEntry` | ovs/driver.go:1040-1076 | of all operations that keep a network, only its own joins, leaves and reconciliations touch its table, and a join or leave only its endpoint's number |
| `LinkEntries.ReconciledEntry` | ovs/driver.go:929-995 | what a network's own reconciliation does to one number of its table, on the manager's maps: by its mirror port, its port options, its VLAN and its cached scrape |
| `LinkEntries.ReconciledExternal` | ovs/driver.go:949-993 | the same for one name of its ExternalPorts, and that the scrape is cached |
| `LinkEntries.SparedEntryKept` | ovs/driver.go:968-976 | over every fault-free run, while a port with the prefix ods, or any at the local or the mirror port, is plugged in at a number, that number's entry stays what it is |
| `LinkEntries.CreatedLinkEntry` | ovs/driver.go:624-649 | creation records the mirror port and writes an output port there, or a stack link at the number of the near end to that of the far end |
| `LinkEntries.LinkEntryTheorem` | ovs/driver.go:624-649 | from creation through every fault-free run, that entry survives every reconciliation while the network's end of the link is plugged in where it was |
| `LinkEntries.MirrorOutAtEndIff` | ovs/driver.go:248-250 | over every run of the shared bridges, the number configured as the mirror's output is the number of the network's end of the link if and only if the wanted number was free when the bridge was initialised |
| `LinkEntries.StackLinkAtEnd` | ovs/driver.go:637-643 | over every such run the stack link is configured at the least number that was free on the bridge, and leads to the number of the other end |
| `Refinement.InStepThroughoutIff` | ovs/driver.go:929-995 | over every fault-free run of the whole system a number's external interface stays what the cached scrape calls for if and only if no endpoint joins where that scrape has an external port and no scrape demotes it |
| `Refinement.RecoversIff` | ovs/driver.go:943-993 | a scrape that differs from the cached one brings a number back in step if and only if it wants the number, the number is gone, or nothing external is there |
| `Refinement.CreatedInStep` | ovs/driver.go:571-650 | after creation on a datapath without external interfaces every number is in step |
| `Refinement.EqualScrapesRestoreNothing` | ovs/driver.go:944-946 | a scrape equal to the cached one changes nothing, so a number out of step stays so |
| `Witnesses.OutOfStepReached` | ovs/driver.go:944-946 | a legal run from every fresh start: a host port gives way to a container, returns to its number before the next scrape, and the controller does not have it |
| `Rules.FourRulesPerMapping` | ovs/ovs_iptables.go:37-51 | four rules per mapping, none of them a network's masquerading rule |
| `Types.VethNames` | ovs/utils.go:220-225 | port names of endpoints carry the container prefix and coincide exactly when the first five characters of the identifiers do |
| `Types.VethShape` | ovs/ovs_config.go:237-239 | an endpoint's port is named odsve and the first five characters of its identifier, ten characters in all |
| `Types.VethExamples` | ovs/ovs_config.go:237-239 | two identifiers that share a port name, and two that agree in their last five characters only and do not |
| `World.ExecAddRules` | ovs/driver.go:769-773 | adding a list of rules one command at a time never fails of itself and appends exactly that list, in order |
| `World.ExecDelRules` | ovs/driver.go:881-884 | deleting a list of rules that are all there finds each one, and takes away the first equal rule for each |
| `Rules.RemoveEachCount` | ovs/ovs_iptables.go:49-51 | whatever the order, deleting rules takes exactly their multiset away |
| `Agreement.ReserveResult` | ovs/driver.go:705-716 | in an agreeing state a reserve completes, and plugs the endpoint in and records it at the scanned number |
| `Agreement.ReserveAgrees` | ovs/driver.go:705-716 | a reserve keeps the agreement of all records of all endpoints |
| `Agreement.JoinResult` | ovs/driver.go:764-826 | a join completes: its rules are appended, the controller has its container on the network's VLAN with its ACL at the reserved number, and OFPorts and Containers record it, Containers with its address |
| `Agreement.JoinAgrees` | ovs/driver.go:718-845 | a join completes and keeps the agreement; the endpoint has one number in OFPorts, in Containers, on its bridge and in the controller with the network's VLAN |
| `Agreement.LeaveAgrees` | ovs/driver.go:847-900 | a leave that finds its rules completes, keeps the agreement, and the endpoint is gone from all four records |
| `NetworkAgreement.CreateResult` | ovs/driver.go:550-676 | wherever creation stops, either nothing happened or the network is recorded and only its own ExternalPorts and its own table, never a container's entry, are filled in |
| `NetworkAgreement.CreateAgrees` | ovs/driver.go:550-676 | creating a network keeps the agreement, even when it panics on a missing port |
| `NetworkAgreement.DeleteAgrees` | ovs/driver.go:510-544 | deleting a network whose endpoints have left completes and keeps the agreement |
| `NetworkAgreement.InitEffect` | ovs/ovs_bridge.go:210-240 | a new bridge carries exactly the ports it was given, at their numbers, a NAT network's rule is in front, and every other bridge keeps its ports |
| `NetworkAgreement.InitAgrees` | ovs/ovs_bridge.go:210-240 | building a network's bridge with its ports and NAT rule keeps the agreement |
| `NetworkAgreement.ReconcileSparesEndpoint` | ovs/driver.go:949-985 | reconciling any network leaves the interface of every live endpoint as it is, even at a number that belonged to an external port in the cached scrape |
| `NetworkAgreement.ReconcileAgrees` | ovs/driver.go:929-995 | reconciliation keeps the agreement |
| `NetworkAgreement.DhcpAgrees` | ovs/driver.go:902-927 | changing a container's HostIP keeps the agreement |
| `FaultFree.FaultFreeTheorem` | ovs/driver.go:1031-1082 | in every state of every fault-free run all records of every endpoint agree, nothing belongs to an endpoint that is not live, the rules balance, and no endpoint or delete handler panicked |
| `FaultFree.LivePortsDistinct` | ovs/driver.go:705-716 | in every state of every fault-free run two live endpoints of a network have different numbers |
| `FaultFree.LeaveInv` | ovs/driver.go:847-900 | in every such state a leave completes and the endpoint is gone from OFPorts, Containers, the bridge and the controller |
| `Leftovers.NothingLeftBehind` | ovs/driver.go:1031-1082 | after any fault-free run that ends with no endpoint and no network, networks, stackMirrorConfigs and OFPorts are empty, the rules are the host's own again up to order, and no container's port or interface is left on any bridge or datapath |
| `RuleOrder.RulesRestored` | ovs/ovs_iptables.go:37-51 | and if no join found a rule of its own in place, the rules are the host's own in their order |
| `Leftovers.CachedIff` | ovs/driver.go:534-535 | in every run, faults included, a network is in AllPortDesc at the end if and only if it was at the beginning or some scrape of it succeeded, deleted or not |
| `Leftovers.ScrapeOutlivesNetwork` | ovs/driver.go:534-535 | the case in point: create, one reconciliation, delete, and the scrape is still cached |
| `Leftovers.LifeCycleRestores` | ovs/driver.go:1054-1065 | create, reserve, join, leave and delete in Docker's order is a legal run from every fresh start, and it ends with networks, stackMirrorConfigs, OFPorts, the keys of AllPortDesc and, up to order, the rules as they began |
| `Creation.CreateFinishesIff` | ovs/driver.go:571-650 | creation runs to its end if and only if every port it names is plugged in, and the far end of the link in mirror mode, and both ends in stacking mode |
| `FaultFree.RecreateBadBridgeBalancesIff` | ovs/driver.go:1046-1049 | rebuilding a bridge without deleting its network keeps the rules balanced if and only if it is not a NAT network |
| `Creation.PhysicalConfiguredIff` | ovs/driver.go:579-592 | a port named at creation gets its own interface, on the VLAN it was given and otherwise on the network's, if and only if it is not a coprocessor port too and its number is not overridden by the window, the gateway or a link |
| `Creation.RequestInsideWindow` | ovs/driver.go:606-615 | the case in point: a port that asked for number 3 with three ports preallocated from 1 is overridden |
| `Creation.CoproConfiguredIff` | ovs/driver.go:594-604 | the same for coprocessor ports |
| `Creation.SpecialConfigured` | ovs/driver.go:606-650 | the local port has a gateway, with the network's VLAN and NAT ACL, if and only if the network is not flat and the link does not take the number; the window carries the network's VLAN and default ACL, the mirror port is output only, and the stack link leads to the number of its other end |
| `Creation.CreateTheorem` | ovs/driver.go:550-650 | with its ports and link ends plugged in, creation completes, merges exactly those interfaces into the network's table, and ExternalPorts lists the named ports and the gateway at their numbers and nothing else |
| `NetworkOptions.OptionsTheorem` | ovs/driver.go:571-592 | for every list of ports the documented grammar can say, after creation each is configured at its number, on the VLAN given for it last or else the network's, if and only if it is not listed as a coprocessor port too and its number is not overridden |
| `NetworkOptions.OwnVlan` | README.md:131-142 | the case in point: eth0///20 on a network of VLAN 100 is configured on VLAN 20 |
| `NetworkOptions.PhysicalFromSpecs` | ovs/driver.go:571-588 | the physical ports of a printed option are the names it lists, each with the VLAN given for it last, or none |
| `NetworkOptions.CoproFromSpecs` | ovs/driver.go:594-598 | the coprocessor ports are the names listed, whatever ACLs and VLANs are said of them |
| `NetworkOptions.CreationNames` | ovs/driver.go:939-941 | the names the reconciler parses out of both options at every pass are those of the ports given at creation |
| `Restore.RestoredCoproIff` | ovs/driver.go:1130-1138 | after a restore the controller has an entry at a coprocessor port's number if and only if it still had one, or the port is an ordinary one too, or the window, the gateway or a link has the number; it is the coprocessor's if and only if it was, and neither of the others holds |
| `Restore.RestoredCoproFateIff` | ovs/driver.go:1130-1138 | over every sequence of scrapes that show the port at its number or not at all, it has an interface in the end if and only if the restore left it one and no scrape misses it after one showed it |
| `Restore.RebuiltCoproLost` | ovs/driver.go:1046-1053 | the case in point: a rebuilt bridge gave the port another number, which is not configured, while the old one still is |
| `Conservation.JoinRulesPresent` | ovs/driver.go:878-884 | while the rules balance, every rule a leave is about to delete is there, as often as it deletes it |
| `Conservation.NatRulePresent` | ovs/driver.go:524-530 | while the rules balance, the masquerading rule of every NAT network is there |
| `Conservation.JoinConserves` | ovs/driver.go:764-773 | a join adds exactly its own rules, so the balance holds with its claims added |
| `Conservation.LeaveConserves` | ovs/driver.go:878-884 | a leave takes exactly its own rules away, so the balance holds without its claims |
| `Conservation.InitConserves` | ovs/ovs_bridge.go:230-236 | initialising a bridge adds one masquerading rule exactly for a NAT network |
| `Conservation.DeleteConserves` | ovs/driver.go:524-530 | deleting a network removes exactly its masquerading rule |
| `Forwarding.RulesForIff` | ovs/ovs_iptables.go:37-43 | a rule is issued for a list of mappings exactly if it is one of some mapping's four |
| `Forwarding.ClaimedIff` | ovs/ovs_iptables.go:37-51 | while the rules balance, a mapping's rule is there if and only if a joined endpoint calls for it |
| `Forwarding.ForwardingTheorem` | ovs/driver.go:764-773 | over every fault-free run the rules that readdress a gateway's port to a container's port are there, in both chains, if and only if a joined endpoint has that mapping; then hairpin traffic is masqueraded, and the filter lets the packet through if and only if it is tcp |
| `Forwarding.UdpNotLetThrough` | ovs/ovs_iptables.go:37-43 | the case in point: a udp mapping is readdressed and its accept rule is for tcp |
| `Traffic.RedirectJoin` | ovs/ovs_iptables.go:37-43 | a join's rules send a packet to the first of its mappings that maps it, and nowhere if none does |
| `RuleOrder.OrderTheorem` | ovs/driver.go:764-773 | over every fault-free run whose joins find none of their own rules in place, the rules are the networks' masquerading rules, the host's own in their order, and the blocks of the joined endpoints, longest joined first |
| `Traffic.TrafficTheorem` | ovs/driver.go:764-773 | over every fault-free run whose joins find no rule in place that already takes the packet where one of theirs would, a packet the host's rules do not take goes to a target if and only if that is where the first matching mapping of the longest joined endpoint that maps it leads, in both chains |
| `Traffic.SecondMappingShadowed` | ovs/driver.go:769-773 | two endpoints that map one port both have their rules in place, and only the first is served |
| `Traffic.EqualRuleMoves` | ovs/ovs_iptables.go:49-51 | deleting one of two equal rules changes which container another rule's packets go to |
| `Faults.ReserveSurvives` | ovs/driver.go:705-716 | a reserve cut short anywhere keeps the invariant that survives faults |
| `Faults.JoinSurvives` | ovs/driver.go:718-845 | a join cut short anywhere keeps it |
| `Faults.LeaveSurvives` | ovs/driver.go:847-900 | a leave cut short anywhere keeps it |
| `StoppingPoints.ReserveStops` | ovs/driver.go:705-716 | a reserve cut short has plugged in and recorded nothing |
| `StoppingPoints.JoinStops` | ovs/driver.go:764-826 | a join that fails at its k-th command has appended exactly k of its rules; the controller gets the interface after all of them, and the manager's maps after that |
| `StoppingPoints.LeaveStops` | ovs/driver.go:868-888 | a leave that fails at its k-th command has unplugged the port, then dropped the interface, then deleted exactly k - 2 rules; the manager's maps forget the endpoint only at the end |
| `StoppingPoints.DeleteStops` | ovs/driver.go:518-536 | a deletion drops the datapath, then a NAT network's rule, then the bridge together with the record |
| `StoppingPoints.InitStops` | ovs/ovs_bridge.go:210-240 | a bridge that cannot be built is gone, and otherwise it carries exactly the ports it was given, with a NAT network's rule only if that command was reached; other bridges keep theirs |
| `StoppingPoints.CreateStops` | ovs/driver.go:550-650 | a creation that panics anywhere, a missing port included, has configured nothing in the controller; the network is recorded unless its first command failed |
| `FaultyRuns.CreateSurvives` | ovs/driver.go:550-676 | a creation cut short anywhere keeps it |
| `FaultyRuns.DeleteSurvives` | ovs/driver.go:510-544 | a deletion cut short anywhere keeps it |
| `FaultyRuns.InitSurvives` | ovs/driver.go:266-272 | an initialisation of a bridge cut short anywhere, with Docker told that the network was not created, keeps it |
| `FaultyRuns.FaultTheorem` | ovs/driver.go:1031-1082 | with a panic at any command of any handler: a live recorded endpoint that is plugged in has its number on the bridge if and only if it was not recorded as 0, every container port has a reservation with its number, every Containers entry has a reservation with the same number, and every network has its mirror configuration |
| `FaultyRuns.NumbersMatchThroughoutIff` | ovs/driver.go:705-716 | over every run, faults included, all recorded endpoints that are plugged in, dead ones too, carry their number after every event if and only if no reserve plugs in a name another reservation has at another number and no join completes without a reservation while its name is plugged in |
| `FaultyRuns.SharedNameMismatch` | ovs/ovs_config.go:237-239 | the case in point: a dead endpoint's reservation and a new endpoint that shares its five characters |
| `Witnesses.SharedNameReached` | ovs/ovs_config.go:237-239 | a legal run from every fresh start that gets there |
| `FaultyRules.ExecRules` | ovs/driver.go:764-773 | however far a handler gets, it takes away no more rules than it means to, and if it gets to its end it has added all it means to |
| `FaultyRules.CoverTheorem` | ovs/driver.go:878-884 | in every run, with a panic at any command, the rules are at least the host's own and what every live endpoint that completed its join and every NAT network calls for |
| `FaultyRules.RulesFoundUnderFaults` | ovs/driver.go:878-884 | so a leave of a completed join finds every rule it deletes, and a deletion of a NAT network the network's own |
| `LiveRecords.LiveThroughoutIff` | ovs/driver.go:1031-1082 | in every run, with a panic at any command, OFPorts and the bridge agree on every live reserved endpoint, and Containers and the controller too once its join has completed, after every event if and only if no pass over a network of the same name edits such an endpoint's number |
| `LiveRecords.HarmIsStale` | ovs/driver.go:929-995 | only a network that Docker has deleted and the manager failed to can do that |
| `LiveRecords.LiveTheorem` | ovs/driver.go:1031-1082 | so as long as no such network is reconciled, all four records of every live endpoint agree, whatever else panics |
| `LiveRecords.StaleNamesakeHarms` | ovs/driver.go:949-961 | the exception: a pass over what is left of a network deletes the interface of a live endpoint on the datapath of that name |
| `Witnesses.StaleHarmReached` | ovs/driver.go:949-961 | a legal run from every fresh start that gets there |
| `FaultyRuns.PluggedPortsDistinct` | ovs/driver.go:705-716 | so live endpoints plugged into one bridge, one of them not recorded as 0, have different numbers |
| `FaultyRuns.StaleReservationIff` | ovs/driver.go:875-886 | a leave unplugs the endpoint and drops its interface, and its reservation stays behind if and only if its join never completed |
| `Leftovers.StaleReservationReached` | ovs/driver.go:875-886 | a legal run from every fresh start gets there: the join panics, the container leaves, and the reservation is still there |
| `FaultyRuns.JoinAfterLostReserve` | ovs/driver.go:725-725 | if a port was plugged in but not recorded, the join records number 0 and the numbers no longer match |
| `ResourceManagers.ResourceManager.HandleReservePort` | ovs/driver.go:705-716 | the handler on the manager's own maps, scrape and allocator included, does what its script does for every place a fault strikes |
| `ResourceManagers.ResourceManager.HandleJoinContainer` | ovs/driver.go:718-845 | the same for a join |
| `ResourceManagers.ResourceManager.HandleLeaveContainer` | ovs/driver.go:847-900 | the same for a leave, and it replies exactly once however it ends |
| `ResourceManagers.ResourceManager.HandleCreateNetwork` | ovs/driver.go:550-676 | the same for a creation, in whatever order the port maps are visited |
| `ResourceManagers.ResourceManager.HandleDeleteNetwork` | ovs/driver.go:510-544 | the same for a deletion, which replies exactly if it completes |
| `ResourceManagers.ResourceManager.GatherIfaces` | ovs/driver.go:579-634 | the loops over ports and over the window build the interfaces specified, later entries overriding earlier ones; a port that nothing overrides is there on its own VLAN or the network's |
| `ResourceManagers.ResourceManager.ScrapePortDesc` | ovs/ovs_port.go:37-59 | the map from number to name lists exactly the bridge's ports |
| `ResourceManagers.ResourceManager.ReconcileOvs` | ovs/driver.go:929-995 | all networks in any order: exactly one pass for each, over a true scrape of its bridge unless its scrape fails, after which every network whose scrape worked has it cached |
| `ResourceManagers.ResourceManager.ReconcileDhcp` | ovs/driver.go:902-927 | a container gets the address of its lease if and only if the marker file has changed, its network uses DHCP and it has a lease; everything else is as before; and that is what a legal sequence of address updates does to the whole system, whatever state it is in |
| `ResourceManagers.ResourceManager.LeaseNetworks` | ovs/driver.go:912-926 | the loop over the networks passes those without DHCP by and gives every container of the others the address of its lease, in any order |
| `ResourceManagers.ResourceManager.LeaseContainers` | ovs/driver.go:916-925 | the loop over one network's containers: those with a lease get its address, the others and all other networks keep what they had |
| `Leases.UpdateEffect` | ovs/driver.go:922-923 | one address update sets that container's HostIP and changes nothing else |
| `Leases.UpdatesLegal` | ovs/driver.go:1040-1076 | any sequence of address updates is a legal fault-free run from every state |
| `Protocol.CounterTheorem` | ovs/driver.go:358-373 | in every run the counter is the creates and deletes not yet finished less the Dones nobody added, at least minus one, where the process ends; without a bridge rebuilt while down it equals them and is never negative |
| `Protocol.WaitSeesEverything` | ovs/driver.go:458-469 | a join that passes Wait finds every counted operation sent and handled up to its Done |
| `Protocol.JoinHandledInOrder` | ovs/driver.go:1040-1076 | when a join is handled, its network's creation and its endpoint's reservation have been handled before it |
| `Protocol.RecreateDownGoesNegative` | ovs/driver.go:1050-1053 | one bridge found down takes the counter to minus one |
| `Protocol.EarlyReleaseIff` | ovs/driver.go:1130-1155 | the counter is zero with work outstanding if and only if the surplus Dones equal that work |
| `Protocol.WaiterReleasedEarly` | ovs/driver.go:1050-1053 | a run that does it: start-up's own Wait returns after the first Done, and after the second a join passes Wait while another network's creation has not even been sent |
| `Links.AddPatchEffect` | ovs/ovs_port.go:98-125 | a patch link adds its two ends and nothing else: the far one at the least free number of its bridge, the near one at the number asked for if and only if one is asked for and free, and at the least free one if none is |
| `Links.PeersIff` | ovs/driver.go:1084-1094 | which shared bridges are in force: the mirror bridge if it has an output, otherwise the stacking bridge if there is a stacking interface, and the loopback bridge too if a whole mirror interface is given |
| `Links.InitLinksEffect` | ovs/driver.go:248-263 | initialising a bridge adds exactly both ends of one link per shared bridge in force; the near end of the mirror link, and of the loopback link, is at the wanted number if and only if that is free at that point, that of the stacking link at the least free number, and the far ends at the least free numbers of their bridges |
| `Links.InitLinksAgain` | ovs/driver.go:1046-1049 | initialising a bridge whose links are there changes no interface and no number |
| `Links.DeleteLinksEffect` | ovs/driver.go:495-507 | deleting removes exactly both ends of the same links, though the mode tests nest differently |
| `Links.DeleteUndoesInit` | ovs/driver.go:495-508 | deleting a bridge after initialising it leaves the interfaces what they were |
| `Links.LinksTheorem` | ovs/driver.go:238-264 | over every run the shared bridges carry what they started with and exactly one link end per live network for the mode in force, at distinct numbers; each live network's own ends are at the numbers it wanted if and only if those were free when it was initialised; and its mirror port is tagged with its VLAN although flows are never removed |
| `Links.HashedNamesDistinguish` | ovs/ovs_port.go:18-24 | hashed names tell all links apart when the bridges' hashes differ and encode to one length |
| `Links.LinkTable.InitBridge` | ovs/driver.go:248-263 | the calls as the driver makes them have that effect on the switch, and the flow of the new mirror port carries the network's VLAN |
| `Links.LinkTable.MustDeleteBridgeAndPorts` | ovs/driver.go:495-508 | the nested calls remove the links and then the bridge's own ports |
| `Links.LinkTable.MustAddPatchPort` | ovs/ovs_port.go:98-125 | both numbers are chosen before either end is plugged in, and a refused port is ignored |
| `AddPorts.ParseAddPorts` | ovs/ovs_bridge.go:83-130 | the loop that writes three maps is the parse specified port by port, with the same panics |
| `AddPorts.ParseConcat` | ovs/ovs_bridge.go:87-87 | parsing two non-empty texts joined by a comma is parsing one and then the other into the same maps |
| `AddPorts.JoinedIsSequence` | ovs/driver.go:239-246 | the text given to bridge creation parses like AddPorts followed by AddCoproPorts, empty ones included |
| `AddPorts.ValidationSuffices` | ovs/driver.go:334-338 | when validation passes, bridge creation's parse cannot panic and finds the same ports |
| `AddPorts.HandlerParsesIff` | ovs/driver.go:571-577 | after validation, the create handler's parse succeeds if and only if every VLAN field it reads is a number from 1 to 4094 |
| `AddPorts.UncheckedVlan` | ovs/driver.go:334-338 | a VLAN out of range passes validation and panics in the handler |
| `AddPorts.Unsayable` | ovs/ovs_bridge.go:88-128 | what the grammar cannot say: a port number that is none is a panic, an ACL without a port number and everything after the fourth field are passed over |
| `AddPorts.AddPortsRoundTrip` | ovs/ovs_bridge.go:83-130 | printing any list of ports in the documented grammar and parsing it gives, field by field, what the last entry to set it says |
| `AddPorts.VlanOnly` | README.md:131-142 | the documented form eth0///20 is what a VLAN without a number prints as |
| `Text.ParseDecimal` | ovs/utils.go:23-29 | the decimal text of every number parses back to it if it is below 2^32 and is refused otherwise |
| `Text.ParseRefuses` | ovs/utils.go:23-29 | no text, and any text with a character that is not a digit, is refused |
| `Labels.GetStrForNetwork` | ovs/ovs_config.go:343-357 | the loop that keeps overwriting its result returns the value of the last segment that applies |
| `Labels.LastSegmentDecides` | ovs/ovs_config.go:343-357 | the last segment that is bare or names the network decides, and without one the result is empty |
| `Labels.LabelRoundTrip` | ovs/ovs_config.go:343-357 | looking up a printed default followed by name:value pairs is map lookup with that default, for every network |
| `Labels.DistinctEntries` | README.md:212-224 | with distinct networks that map says what each pair says |
| `Labels.NoDefault` | ovs/ovs_config.go:343-357 | without a default an unnamed network gets nothing |
| `Labels.ManyColons` | ovs/ovs_config.go:343-357 | a segment with two colons or more applies to no network |
| `Labels.TrailingSlash` | ovs/ovs_config.go:343-357 | a slash at the end is an empty default that overrides all before it |
| `Labels.ChooseAcl` | ovs/driver.go:775-788 | the container's own label, if it is there and not empty, decides, and otherwise the network's default |
| `Labels.OwnAcl` | ovs/driver.go:775-782 | a container with a label gets what the label says for this network by map lookup, whatever the network's default is |
| `Labels.DefaultAcl` | ovs/driver.go:783-788 | one without a label, or with an empty one, gets what the network's default says for it |
| `Labels.LabelHidesDefault` | ovs/driver.go:775-788 | a label that names other networks only leaves the container without an ACL on this one |
| `Base62.B62Encode` | ovs/utils.go:59-73 | the loop yields the base-62 digits, most significant first; "0" for zero and nothing for negative numbers |
| `Base62.EncodeTheorem` | ovs/utils.go:59-77 | every number below 2^32 decodes back, takes one to six digits and has no leading zero unless it is zero |
| `Base62.Alphabet` | ovs/utils.go:20 | the digits are those of the driver's alphabet, in its order |
| `PatchNames.PatchNameFits` | ovs/ovs_port.go:18-24 | every patch name fits in 15 characters, so the panic is unreachable |
| `PatchNames.CommuteRoot` | ovs/ovs_port.go:105-106 | two words that commute are powers of a common word |
| `PatchNames.EndsClashIff` | ovs/ovs_port.go:105-106 | the two ends of a link get the same name if and only if their encoded hashes are powers of a common word |
| `PatchNames.EndsDiffer` | ovs/ovs_port.go:105-106 | they differ whenever the hashes differ and encode to one length |
| `PatchNames.ClashExample` | ovs/ovs_port.go:105-106 | hashes 1 and 63 encode to powers of one word and clash |
| `Bridges.BuildCommands` | ovs/ovs_bridge.go:145-173 | in any order of visiting, one add-port per requested port with the number it asked for, and none for anything else |
| `Bridges.Switch.CreateBridge` | ovs/ovs_bridge.go:132-207 | success leaves every requested port on the bridge with a valid number, its own if each asked for a different one; after a failure the bridge is there if and only if deleting it failed too; no other bridge changes |

## Left out

- FAUCET's YAML text, gRPC and TLS: replaced by operations on per-datapath tables.
- Docker client calls and their retries: inspect results are inputs, and a failing call is a fault.
- netlink, namespaces, MAC prefixes, `udhcpc` and `ethtool`: only that they can fail, at the places where that matters to the state.
- The text of `dump-ports-desc`: a scrape is a finite map from number to name.
- The web status server, IP authorisation, JSON, the notifier and logging: no state of their own.
- `base36to16` and `mustGetUintFromHexStr`: they rest on a conversion library that is not part of this model.
- `ipIncrement` and `validateIface`: easy members without callers in the core.
- `OtherBridgePorts`, the calls that set the ACLs of add_ports and of VLANs, and port mirroring in FAUCET: they change no record modelled here; port mirroring and the DHCP client are a step of the join that can fail.
- Creation.CreateTheorem: in stacking mode the same call also writes the other end's entry into the stacking bridge's table, which is not a network's and is not modelled.
- NetworkAgreement.InitAgrees: link ends on the shared bridges are the subject of `Links`; here they are ports that come and go.
- Traffic.TrafficTheorem: where a join finds in place a rule equal to one of its own that takes the packet, which of the two owners keeps the earlier place is not said.
- The `-P FORWARD ACCEPT` policy set beside every NAT rule: it is never undone and has nothing to balance.
- `restoreNetworks`: beyond its effect on the counter, on the rules and on coprocessor ports, rebuilding after a restart is not modelled.
- Ports.SortInts: the library sort is modelled as an insertion sort on sequences.
- Reconciler.ReconcileNetwork: the pass of one network works on values; the class method that calls it updates the manager's maps in place.
- FaultyRuns.FaultTheorem: it does not add up over a run the interfaces and rules that joins and leaves cut short leave behind; what one of them leaves is the subject of `StoppingPoints`, and what live endpoints have of `LiveRecords` and `FaultyRules`.
- Links.LinksTheorem: a rejected add-port is modelled, but a panic between the two ends of a link is not.
- Scripts, dashboards, compose files and `graph_dovesnap.py`: no core behaviour.
