/** What becomes of the preallocated entries in the controller as containers come and go. */
module WindowEntries {
  import opened Types
  import opened Rules
  import opened World
  import opened Handlers
  import opened Entries
  import FF = FaultFree
  import R = Reconciler

  /** The controller still has the preallocated entry at this number. */
  ghost predicate HasEntry(s: State, id: Id, p: nat) {
    id in s.networks && EntryAt(s, id, p).Some? && EntryAt(s, id, p).value.Preallocated?
  }

  /** The two ways to lose it: an endpoint joins or leaves at the number, or a scrape that differs
      from the cached one calls for a host port there, or no longer shows one it had. */
  ghost predicate Loses(sys: Sys, op: Op, id: Id, p: nat) {
    var s := sys.state;
    || Uses(sys, op, id, p)
    || (&& op.Reconcile? && op.id == id && id in s.networks && op.scrape.Some? && op.scrape != ViewOf(s, id).cache
        && (R.Wants(SettingsOf(s, id), op.scrape.value, p) || R.Gone(Cached(s, id), op.scrape.value, p)))
  }

  /** One operation that keeps the network loses the entry exactly if it is one of those. */
  lemma StepLosesIff(sys: Sys, op: Op, host: multiset<Rule>, id: Id, p: nat)
    requires FF.Inv(sys, host) && Legal(sys, op) && op != DeleteNetwork(id) && id in sys.state.networks
    ensures var s' := Next(sys, op, NoFault).state;
            && id in s'.networks
            && (HasEntry(s', id, p) <==> HasEntry(sys.state, id, p) && !Loses(sys, op, id, p))
  {
    hide FF.Inv, EntryAt, SettingsOf, R.Wants, R.Gone;
    if op.Reconcile? && op.id == id {
      hide ReconcileState;
      OwnPass(sys.state, op.scrape, id, p);
    } else {
      hide Next;
      StepEntry(sys, op, host, id, p);
    }
  }

  ghost predicate LostIn(sys: Sys, events: seq<Event>, id: Id, p: nat)
    decreases |events|
  {
    events != [] && (Loses(sys, events[0].op, id, p) || LostIn(Next(sys, events[0].op, events[0].luck), events[1..], id, p))
  }

  /** Over every fault-free run in which the network stays: its preallocated entry at a number is
      still there exactly if no event lost it.  Nothing preallocates again. */
  lemma {:induction false} PreallocatedEntryIff(sys: Sys, events: seq<Event>, host: multiset<Rule>, id: Id, p: nat)
    requires FF.Inv(sys, host) && LegalRun(sys, events) && Handlers.FaultFree(events) && id in sys.state.networks
    requires forall i :: 0 <= i < |events| ==> events[i].op != DeleteNetwork(id)
    ensures HasEntry(Run(sys, events).state, id, p) <==> HasEntry(sys.state, id, p) && !LostIn(sys, events, id, p)
    decreases |events|
  {
    hide FF.Inv, Legal, Next, HasEntry, Loses;
    if events != [] {
      StepLosesIff(sys, events[0].op, host, id, p);
      FF.StepInv(sys, events[0].op, host);
      PreallocatedEntryIff(Next(sys, events[0].op, NoFault), events[1..], host, id, p);
    }
  }
}
