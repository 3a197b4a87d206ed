/** Creating a bridge with its ports, and taking it down again when a command fails. */
module Bridges {
  import opened Types
  import opened Ports

  /** Ports of a bridge by name; None is the ofport -1 of an interface that does not work. */
  type PortTable = map<string, Option<nat>>

  datatype Outcome =
    | Created
    | NotAdded        // the bridge itself could not be added
    | RolledBack      // something after that failed, and the bridge was deleted again

  datatype Command =
    | Configure                                // set bridge ..., set-controller ...
    | AddPort(name: string, request: nat)      // request 0: no number asked for

  function NumbersUsed(table: PortTable): set<nat> {
    set name | name in table && table[name].Some? :: table[name].value
  }

  ghost predicate ValidPorts(table: PortTable, names: set<string>) {
    forall name :: name in names ==> name in table && table[name].Some? && table[name].value >= 1
  }

  /** The commands that configure a bridge, its ports in the order the map is visited. */
  ghost predicate Requests(cmds: seq<Command>, ports: map<string, nat>) {
    && (forall i :: 0 <= i < |cmds| && cmds[i].AddPort? ==> cmds[i].name in ports && cmds[i].request == ports[cmds[i].name])
    && (forall name :: name in ports ==> exists i :: 0 <= i < |cmds| && cmds[i] == AddPort(name, ports[name]))
    && (forall i, k :: 0 <= i < k < |cmds| && cmds[i].AddPort? && cmds[k].AddPort? ==> cmds[i].name != cmds[k].name)
  }

  /** Every port asks for a number of its own. */
  ghost predicate Fixed(ports: map<string, nat>) {
    && (forall x :: x in ports ==> ports[x] > 0)
    && (forall x, y :: x in ports && y in ports && ports[x] == ports[y] ==> x == y)
  }

  /** Every number on the bridge is the one its port asked for. */
  ghost predicate Honoured(table: PortTable, ports: map<string, nat>) {
    forall x :: x in table ==> x in ports && (table[x].Some? ==> table[x].value == ports[x])
  }

  /** A port that asks for a number of its own finds it free. */
  lemma StillFree(table: PortTable, ports: map<string, nat>, name: string)
    requires Fixed(ports) && Honoured(table, ports) && name in ports && name !in table
    ensures ports[name] !in NumbersUsed(table)
  {
  }

  /** Builds that list: one optional setting per option, then one command per port. */
  method BuildCommands(userspace: bool, localMac: string, dpid: string, controller: string, ports: map<string, nat>)
    returns (cmds: seq<Command>)
    ensures Requests(cmds, ports)
  {
    cmds := [];
    if userspace { cmds := cmds + [Configure]; }
    if localMac != "" { cmds := cmds + [Configure]; }
    if dpid != "" { cmds := cmds + [Configure]; }
    if controller != "" { cmds := cmds + [Configure, Configure]; }
    var rest := ports.Keys;
    while rest != {}
      invariant rest <= ports.Keys
      invariant forall i :: 0 <= i < |cmds| && cmds[i].AddPort? ==>
                  cmds[i].name in ports && cmds[i].name !in rest && cmds[i].request == ports[cmds[i].name]
      invariant forall i, k :: 0 <= i < k < |cmds| && cmds[i].AddPort? && cmds[k].AddPort? ==> cmds[i].name != cmds[k].name
      invariant forall name :: name in ports && name !in rest ==> exists i :: 0 <= i < |cmds| && cmds[i] == AddPort(name, ports[name])
      decreases rest
    {
      var name :| name in rest;
      rest := rest - {name};
      ghost var before := cmds;
      cmds := cmds + [AddPort(name, ports[name])];
      forall x | x in ports && x !in rest ensures exists i :: 0 <= i < |cmds| && cmds[i] == AddPort(x, ports[x]) {
        if x == name {
          assert cmds[|before|] == AddPort(x, ports[x]);
        } else {
          var i :| 0 <= i < |before| && before[i] == AddPort(x, ports[x]);
          assert cmds[i] == AddPort(x, ports[x]);
        }
      }
    }
  }

  class Switch {
    var bridges: map<string, PortTable>
    /** Which commands fail, by their place in the driver's history. */
    const fails: nat -> bool
    /** Whether a network device of that name can be opened. */
    const works: string -> bool
    var clock: nat
    /** Whether the last attempt to delete a bridge succeeded. */
    var deleted: bool

    constructor (fails: nat -> bool, works: string -> bool, bridges: map<string, PortTable>)
      ensures this.fails == fails && this.works == works && this.bridges == bridges && clock == 0
    {
      this.fails, this.works, this.bridges, clock, deleted := fails, works, bridges, 0, true;
    }

    ghost predicate SameOthers(was: map<string, PortTable>, bridge: string)
      reads this
    {
      forall b :: b != bridge ==> (b in bridges <==> b in was) && (b in was ==> bridges[b] == was[b])
    }

    method Run() returns (ok: bool)
      modifies this`clock
      ensures clock == old(clock) + 1 && ok == !fails(old(clock))
    {
      ok := !fails(clock);
      clock := clock + 1;
    }

    /** del-br; the driver ignores the answer. */
    method DelBridge(bridge: string)
      modifies this`clock, this`bridges, this`deleted
      ensures bridges == if deleted then old(bridges) - {bridge} else old(bridges)
    {
      deleted := Run();
      if deleted {
        bridges := bridges - {bridge};
      }
    }

    method AddBridge(bridge: string, mayExist: bool) returns (ok: bool)
      modifies this`clock, this`bridges
      ensures ok ==> bridge in bridges && (bridge !in old(bridges) ==> bridges[bridge] == map[])
      ensures ok ==> SameOthers(old(bridges), bridge)
      ensures !ok ==> bridges == old(bridges)
      ensures ok && !mayExist ==> bridge !in old(bridges)
    {
      ok := Run();
      if ok && !mayExist && bridge in bridges {
        ok := false;
      }
      if ok && bridge !in bridges {
        bridges := bridges[bridge := map[]];
      }
    }

    /** add-port: refused when the name is taken on any bridge.  A device that cannot be opened
        gets no number but the command itself succeeds. */
    method AddPortTo(bridge: string, name: string, request: nat) returns (ok: bool)
      requires bridge in bridges
      modifies this`clock, this`bridges
      ensures bridge in bridges && SameOthers(old(bridges), bridge)
      ensures !ok ==> bridges == old(bridges)
      ensures ok ==> name in bridges[bridge] && (bridges[bridge][name].Some? <==> works(name))
      ensures ok ==> bridges[bridge][name].Some? ==> bridges[bridge][name].value >= 1
      ensures ok && works(name) && request > 0 && request !in NumbersUsed(old(bridges)[bridge]) ==>
                bridges[bridge][name] == Some(request)
      ensures ok ==> name !in old(bridges)[bridge]
      ensures ok ==> forall x :: x in old(bridges)[bridge] ==> x in bridges[bridge] && bridges[bridge][x] == old(bridges)[bridge][x]
      ensures ok ==> forall x :: x in bridges[bridge] ==> x == name || x in old(bridges)[bridge]
    {
      ok := Run();
      if !ok || exists b :: b in bridges && name in bridges[b] {
        return false;
      }
      var table := bridges[bridge];
      var number := request;
      if request == 0 || request in NumbersUsed(table) {
        number := LeastFree(NumbersUsed(table), 1);
      }
      bridges := bridges[bridge := table[name := if works(name) then Some(number) else None]];
    }

    /** Runs the commands until one fails. */
    method Configure(bridge: string, cmds: seq<Command>, ghost ports: map<string, nat>) returns (ok: bool)
      requires bridge in bridges && Requests(cmds, ports)
      modifies this`clock, this`bridges
      ensures bridge in bridges && SameOthers(old(bridges), bridge)
      ensures ok ==> forall i :: 0 <= i < |cmds| && cmds[i].AddPort? ==>
                cmds[i].name in bridges[bridge] && NumberedIfWorking(bridge, cmds[i].name)
      ensures ok && Fixed(ports) && Honoured(old(bridges)[bridge], ports) ==> Honoured(bridges[bridge], ports)
    {
      var i := 0;
      while i < |cmds|
        invariant 0 <= i <= |cmds| && bridge in bridges && SameOthers(old(bridges), bridge)
        invariant forall k :: 0 <= k < i && cmds[k].AddPort? ==>
                    cmds[k].name in bridges[bridge] && NumberedIfWorking(bridge, cmds[k].name)
        invariant Fixed(ports) && Honoured(old(bridges)[bridge], ports) ==> Honoured(bridges[bridge], ports)
      {
        ghost var table := bridges[bridge];
        match cmds[i] {
          case Configure =>
            ok := Run();
          case AddPort(name, request) =>
            ok := AddPortTo(bridge, name, request);
            if ok && Fixed(ports) && Honoured(table, ports) {
              StillFree(table, ports, name);
            }
        }
        if !ok {
          return false;
        }
        i := i + 1;
      }
      return true;
    }

    ghost predicate NumberedIfWorking(bridge: string, name: string)
      reads this
    {
      && bridge in bridges && name in bridges[bridge]
      && (bridges[bridge][name].Some? <==> works(name))
      && (bridges[bridge][name].Some? ==> bridges[bridge][name].value >= 1)
    }

    /** Every requested port must have come up with a number. */
    method AllNumbered(bridge: string, names: set<string>) returns (ok: bool)
      requires bridge in bridges && forall name :: name in names ==> NumberedIfWorking(bridge, name)
      ensures ok <==> ValidPorts(bridges[bridge], names)
    {
      var rest := names;
      while rest != {}
        invariant rest <= names
        invariant forall name :: name in names && name !in rest ==> bridges[bridge][name].Some?
        decreases rest
      {
        var name :| name in rest;
        if bridges[bridge][name].None? {
          return false;
        }
        rest := rest - {name};
      }
      return true;
    }

    /** For any order of visiting the ports and any pattern of failing commands: success leaves
        the bridge with every requested port at a valid number, and at the number it asked for
        if each asked for one of its own; after a failure the bridge is
        there exactly if the command to delete it failed as well.  No other bridge changes. */
    method CreateBridge(bridge: string, controller: string, dpid: string, ports: map<string, nat>,
                        exists_: bool, userspace: bool, localMac: string, comesUp: bool)
      returns (r: Outcome)
      modifies this
      ensures SameOthers(old(bridges), bridge)
      ensures r.Created? ==> bridge in bridges && ValidPorts(bridges[bridge], ports.Keys)
      ensures r.RolledBack? ==> (bridge in bridges <==> !deleted)
      ensures r.NotAdded? && !exists_ ==> (bridge in bridges <==> bridge in old(bridges) && !deleted)
      ensures r.NotAdded? && exists_ ==> bridges == old(bridges)
      ensures r.Created? && !exists_ && Fixed(ports) ==> forall name :: name in ports ==> bridges[bridge][name] == Some(ports[name])
      ensures r.Created? ==> comesUp && forall name :: name in ports ==> works(name)
    {
      var ok;
      if exists_ {
        ok := AddBridge(bridge, true);
      } else {
        DelBridge(bridge);
        ok := AddBridge(bridge, false);
      }
      if !ok {
        return NotAdded;
      }
      var cmds := BuildCommands(userspace, localMac, dpid, controller, ports);
      ok := Configure(bridge, cmds, ports);
      if !ok {
        DelBridge(bridge);
        return RolledBack;
      }
      forall name | name in ports.Keys ensures NumberedIfWorking(bridge, name) {
        var i :| 0 <= i < |cmds| && cmds[i] == AddPort(name, ports[name]);
        assert cmds[i].AddPort?;
      }
      ok := AllNumbered(bridge, ports.Keys);
      if !ok {
        DelBridge(bridge);
        return RolledBack;
      }
      if !comesUp {
        DelBridge(bridge);
        return RolledBack;
      }
      return Created;
    }
  }
}
