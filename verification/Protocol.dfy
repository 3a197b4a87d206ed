/**
 The WaitGroup and channel protocol between Docker's request threads and the resource
 manager: create and delete are counted before they are sent, a join waits for the count
 to reach zero, and one goroutine serves the channel in order.
 */
module Protocol {
  import opened Types

  const CHAN_SIZE := 64

  datatype Kind =
    | Create(network: Id)
    | Delete(network: Id)
    | RecreateBad(network: Id)
    | RecreateDown(network: Id)
    | Reserve(network: Id, endpoint: Id)
    | Join(network: Id, endpoint: Id)
    | Leave(network: Id, endpoint: Id)
    | Status

  /** Requests are told apart by a serial number. */
  datatype Message = Message(serial: nat, kind: Kind)

  /** Counted with Add(1) before sending. */
  predicate Counted(m: Message) {
    m.kind.Create? || m.kind.Delete? || m.kind.RecreateBad? || m.kind.RecreateDown?
  }

  /** How often the handlers of a message call Done: recreating a bridge that is down runs the
      delete handler and the create handler, and each of them does. */
  function Dones(m: Message): nat {
    if m.kind.RecreateDown? then 2 else if Counted(m) then 1 else 0
  }

  datatype Busy = Busy(message: Message, donesLeft: nat)

  datatype State = State(
    counter: int,
    added: set<Message>,            // counted, not yet sent
    cleared: set<Message>,          // joins that got past Wait, not yet sent
    queue: seq<Message>,
    busy: Option<Busy>,
    sent: seq<Message>,             // everything ever sent, in order
    done: seq<Message>)             // everything handled, in order

  const INITIAL := State(0, {}, {}, [], None, [], [])

  datatype Act =
    | Add(message: Message)
    | SendCounted(message: Message)
    | PassWait(message: Message)
    | SendJoin(message: Message)
    | Send(message: Message)
    | Take
    | Done
    | Finish

  ghost predicate Used(p: State, m: Message) {
    m in p.added || m in p.cleared || m in p.sent
  }

  ghost predicate WasSent(log: seq<Message>, kind: Kind) {
    exists i :: 0 <= i < |log| && log[i].kind == kind
  }

  ghost predicate CreationSent(log: seq<Message>, n: Id) {
    WasSent(log, Create(n)) || WasSent(log, RecreateBad(n)) || WasSent(log, RecreateDown(n))
  }

  /** What the threads can do.  Docker asks for a join only when the network's creation and the
      endpoint's reservation have returned, that is, when their messages have been sent.  A
      WaitGroup panics when its counter goes below zero, and nobody recovers: the run ends. */
  ghost predicate Can(p: State, a: Act) {
    p.counter >= 0 &&
    match a
    case Add(m) => Counted(m) && !Used(p, m)
    case SendCounted(m) => m in p.added && |p.queue| < CHAN_SIZE
    case PassWait(m) =>
      && m.kind.Join? && !Used(p, m) && p.counter == 0
      && CreationSent(p.sent, m.kind.network) && WasSent(p.sent, Reserve(m.kind.network, m.kind.endpoint))
    case SendJoin(m) => m in p.cleared && |p.queue| < CHAN_SIZE
    case Send(m) => !Counted(m) && !m.kind.Join? && !Used(p, m) && |p.queue| < CHAN_SIZE
    case Take => p.busy.None? && p.queue != []
    case Done => p.busy.Some? && p.busy.value.donesLeft > 0
    case Finish => p.busy.Some? && p.busy.value.donesLeft == 0
  }

  function Enqueue(p: State, m: Message): State {
    p.(queue := p.queue + [m], sent := p.sent + [m])
  }

  ghost function Do(p: State, a: Act): State
    requires Can(p, a)
  {
    match a
    case Add(m) => p.(counter := p.counter + 1, added := p.added + {m})
    case SendCounted(m) => Enqueue(p.(added := p.added - {m}), m)
    case PassWait(m) => p.(cleared := p.cleared + {m})
    case SendJoin(m) => Enqueue(p.(cleared := p.cleared - {m}), m)
    case Send(m) => Enqueue(p, m)
    case Take => p.(busy := Some(Busy(p.queue[0], Dones(p.queue[0]))), queue := p.queue[1..])
    case Done => p.(counter := p.counter - 1, busy := Some(p.busy.value.(donesLeft := p.busy.value.donesLeft - 1)))
    case Finish => p.(busy := None, done := p.done + [p.busy.value.message])
  }

  ghost predicate Possible(p: State, acts: seq<Act>)
    decreases |acts|
  {
    acts != [] ==> Can(p, acts[0]) && Possible(Do(p, acts[0]), acts[1..])
  }

  ghost function Run(p: State, acts: seq<Act>): State
    requires Possible(p, acts)
    decreases |acts|
  {
    if acts == [] then p else Run(Do(p, acts[0]), acts[1..])
  }

  // -------------------------------------------------------------------------------------
  // Counting

  function CountedIn(log: seq<Message>): nat {
    if log == [] then 0 else CountedIn(log[..|log| - 1]) + if Counted(log[|log| - 1]) then 1 else 0
  }

  function DownIn(log: seq<Message>): nat {
    if log == [] then 0 else DownIn(log[..|log| - 1]) + if log[|log| - 1].kind.RecreateDown? then 1 else 0
  }

  lemma CountedSnoc(log: seq<Message>, m: Message)
    ensures CountedIn(log + [m]) == CountedIn(log) + if Counted(m) then 1 else 0
    ensures DownIn(log + [m]) == DownIn(log) + if m.kind.RecreateDown? then 1 else 0
  {
    assert (log + [m])[..|log|] == log;
  }

  lemma {:induction false} CountedHead(log: seq<Message>)
    requires log != []
    ensures CountedIn(log) == CountedIn(log[1..]) + if Counted(log[0]) then 1 else 0
  {
    var n := |log| - 1;
    if n > 0 {
      CountedHead(log[..n]);
      assert log[1..][..n - 1] == log[..n][1..];
    } else {
      assert log[1..] == [] && log[..0] == [];
    }
  }

  lemma {:induction false} NoneCounted(log: seq<Message>, i: nat)
    requires CountedIn(log) == 0 && i < |log|
    ensures !Counted(log[i])
  {
    var n := |log| - 1;
    if i < n {
      NoneCounted(log[..n], i);
    }
  }

  lemma {:induction false} NoDowns(log: seq<Message>)
    requires forall i :: 0 <= i < |log| ==> !log[i].kind.RecreateDown?
    ensures DownIn(log) == 0
  {
    if log != [] {
      NoDowns(log[..|log| - 1]);
    }
  }

  /** Counted messages on which no handler has called Done yet. */
  ghost function Outstanding(p: State): nat {
    |p.added| + CountedIn(p.queue)
    + if p.busy.Some? && Counted(p.busy.value.message) && p.busy.value.donesLeft == Dones(p.busy.value.message) then 1 else 0
  }

  /** Calls of Done beyond the first, which nobody added. */
  ghost function ExtraDones(p: State): nat {
    DownIn(p.done)
    + if p.busy.Some? && p.busy.value.message.kind.RecreateDown? && p.busy.value.donesLeft == 0 then 1 else 0
  }

  ghost function BusyLog(p: State): seq<Message> {
    if p.busy.Some? then [p.busy.value.message] else []
  }

  /** A join comes after its network's creation and its endpoint's reservation. */
  ghost predicate InDockerOrder(log: seq<Message>) {
    forall i :: 0 <= i < |log| && log[i].kind.Join? ==>
      CreationSent(log[..i], log[i].kind.network) && WasSent(log[..i], Reserve(log[i].kind.network, log[i].kind.endpoint))
  }

  ghost predicate Inv(p: State) {
    && p.counter == Outstanding(p) - ExtraDones(p) && p.counter >= -1
    && p.sent == p.done + BusyLog(p) + p.queue
    && |p.queue| <= CHAN_SIZE
    && (forall m :: m in p.added ==> Counted(m))
    && (p.busy.Some? ==> p.busy.value.donesLeft <= Dones(p.busy.value.message))
    && InDockerOrder(p.sent)
    && (forall m :: m in p.cleared ==>
          m.kind.Join? && CreationSent(p.sent, m.kind.network) && WasSent(p.sent, Reserve(m.kind.network, m.kind.endpoint)))
  }

  lemma SentGrows(log: seq<Message>, m: Message, kind: Kind)
    requires WasSent(log, kind)
    ensures WasSent(log + [m], kind)
  {
    var i :| 0 <= i < |log| && log[i].kind == kind;
    assert (log + [m])[i].kind == kind;
  }

  lemma OrderGrows(log: seq<Message>, m: Message)
    requires InDockerOrder(log)
    requires m.kind.Join? ==> CreationSent(log, m.kind.network) && WasSent(log, Reserve(m.kind.network, m.kind.endpoint))
    ensures InDockerOrder(log + [m])
  {
    var log' := log + [m];
    forall i | 0 <= i < |log'| && log'[i].kind.Join?
      ensures CreationSent(log'[..i], log'[i].kind.network) && WasSent(log'[..i], Reserve(log'[i].kind.network, log'[i].kind.endpoint))
    {
      assert log'[..i] == log[..i];
      assert i == |log| ==> log[..i] == log;
    }
  }

  lemma EnqueueInv(p0: State, p: State, m: Message)
    requires p0.sent == p.sent && p0.queue == p.queue && p0.done == p.done && p0.busy == p.busy && |p.queue| < CHAN_SIZE
    requires InDockerOrder(p.sent) && p.sent == p.done + BusyLog(p) + p.queue
    requires m.kind.Join? ==> CreationSent(p.sent, m.kind.network) && WasSent(p.sent, Reserve(m.kind.network, m.kind.endpoint))
    requires forall j :: j in p.cleared ==>
          j.kind.Join? && CreationSent(p.sent, j.kind.network) && WasSent(p.sent, Reserve(j.kind.network, j.kind.endpoint))
    ensures var p' := Enqueue(p, m);
            && p'.sent == p'.done + BusyLog(p') + p'.queue
            && InDockerOrder(p'.sent)
            && CountedIn(p'.queue) == CountedIn(p.queue) + (if Counted(m) then 1 else 0)
            && forall j :: j in p'.cleared ==>
                 j.kind.Join? && CreationSent(p'.sent, j.kind.network) && WasSent(p'.sent, Reserve(j.kind.network, j.kind.endpoint))
  {
    CountedSnoc(p.queue, m);
    OrderGrows(p.sent, m);
    forall j | j in p.cleared ensures CreationSent(p.sent + [m], j.kind.network) && WasSent(p.sent + [m], Reserve(j.kind.network, j.kind.endpoint)) {
      var n := j.kind.network;
      SentGrows(p.sent, m, Reserve(n, j.kind.endpoint));
      if WasSent(p.sent, Create(n)) { SentGrows(p.sent, m, Create(n)); }
      else if WasSent(p.sent, RecreateBad(n)) { SentGrows(p.sent, m, RecreateBad(n)); }
      else { SentGrows(p.sent, m, RecreateDown(n)); }
    }
  }

  lemma SendInv(p: State, a: Act)
    requires Inv(p) && Can(p, a) && (a.SendCounted? || a.SendJoin? || a.Send?)
    ensures Inv(Do(p, a))
  {
    hide InDockerOrder, WasSent, CreationSent, CountedIn, DownIn;
    match a
    case SendCounted(m) => EnqueueInv(p, p.(added := p.added - {m}), m);
    case SendJoin(m) => EnqueueInv(p, p.(cleared := p.cleared - {m}), m);
    case Send(m) => EnqueueInv(p, p, m);
  }

  lemma RequestInv(p: State, a: Act)
    requires Inv(p) && Can(p, a) && (a.Add? || a.PassWait?)
    ensures Inv(Do(p, a))
  {
    hide InDockerOrder, WasSent, CreationSent, CountedIn, DownIn;
  }

  lemma TakeInv(p: State)
    requires Inv(p) && Can(p, Take)
    ensures Inv(Do(p, Take))
  {
    hide InDockerOrder, WasSent, CreationSent;
    CountedHead(p.queue);
    hide CountedIn, DownIn;
    assert p.queue == [p.queue[0]] + p.queue[1..];
    assert p.done + BusyLog(p) + p.queue == p.done + [p.queue[0]] + p.queue[1..];
  }

  lemma DoneInv(p: State)
    requires Inv(p) && Can(p, Done)
    ensures Inv(Do(p, Done))
  {
    hide InDockerOrder, WasSent, CreationSent, CountedIn, DownIn;
    assert BusyLog(Do(p, Done)) == BusyLog(p);
  }

  lemma FinishInv(p: State)
    requires Inv(p) && Can(p, Finish)
    ensures Inv(Do(p, Finish))
  {
    hide InDockerOrder, WasSent, CreationSent;
    var m := p.busy.value.message;
    CountedSnoc(p.done, m);
    hide CountedIn, DownIn;
    assert BusyLog(p) == [m];
    assert p.sent == p.done + [m] + [] + p.queue;
  }

  lemma DoInv(p: State, a: Act)
    requires Inv(p) && Can(p, a)
    ensures Inv(Do(p, a))
  {
    hide Inv, Can, Do;
    match a
    case Add(m) => RequestInv(p, a);
    case PassWait(m) => RequestInv(p, a);
    case Take => TakeInv(p);
    case Done => DoneInv(p);
    case Finish => FinishInv(p);
    case _ => SendInv(p, a);
  }

  lemma {:induction false} RunInv(p: State, acts: seq<Act>)
    requires Inv(p) && Possible(p, acts)
    ensures Inv(Run(p, acts))
    decreases |acts|
  {
    hide Inv, Can, Do;
    if acts != [] {
      DoInv(p, acts[0]);
      RunInv(Do(p, acts[0]), acts[1..]);
    }
  }

  // -------------------------------------------------------------------------------------
  // Theorems

  ghost predicate NeverDown(p: State) {
    forall m :: m in p.sent ==> !m.kind.RecreateDown?
  }

  /** In every run the counter is what is outstanding, less the extra calls of Done; it goes below
      zero, which ends the process, exactly when those outnumber what is outstanding. */
  lemma CounterTheorem(acts: seq<Act>)
    requires Possible(INITIAL, acts)
    ensures var p := Run(INITIAL, acts);
            && p.counter == Outstanding(p) - ExtraDones(p) >= -1
            && (p.counter < 0 <==> ExtraDones(p) > Outstanding(p))
            && (NeverDown(p) ==> p.counter == Outstanding(p) >= 0)
            && (NeverDown(p) && p.busy.Some? ==> !p.busy.value.message.kind.RecreateDown?)
  {
    assert Inv(INITIAL);
    RunInv(INITIAL, acts);
    var p := Run(INITIAL, acts);
    if NeverDown(p) {
      forall i | 0 <= i < |p.done| ensures !p.done[i].kind.RecreateDown? {
        assert p.sent[i] == p.done[i];
        assert p.sent[i] in p.sent;
      }
      NoDowns(p.done);
      if p.busy.Some? {
        assert p.sent[|p.done|] == p.busy.value.message;
        assert p.sent[|p.done|] in p.sent;
      }
    }
  }

  /** A join that gets past Wait, in a run without bridges recreated while down, finds every
      create and delete that was ever counted handled through to its Done. */
  lemma WaitSeesEverything(acts: seq<Act>, join: Message)
    requires Possible(INITIAL, acts) && Can(Run(INITIAL, acts), PassWait(join)) && NeverDown(Run(INITIAL, acts))
    ensures var p := Run(INITIAL, acts);
            && p.added == {}
            && forall m :: m in p.sent && Counted(m) ==> m in p.done || (p.busy == Some(Busy(m, 0)))
  {
    CounterTheorem(acts);
    RunInv(INITIAL, acts);
    var p := Run(INITIAL, acts);
    hide Run, Possible, InDockerOrder, WasSent, CreationSent, CountedIn, DownIn, NeverDown;
    assert Outstanding(p) == 0;
    forall m | m in p.sent && Counted(m) ensures m in p.done || p.busy == Some(Busy(m, 0)) {
      HandledOrBusy(p, m);
    }
  }

  lemma HandledOrBusy(p: State, m: Message)
    requires p.sent == p.done + BusyLog(p) + p.queue && Outstanding(p) == 0 && m in p.sent && Counted(m)
    requires p.busy.Some? ==> p.busy.value.donesLeft <= Dones(p.busy.value.message)
    requires p.busy.Some? ==> !p.busy.value.message.kind.RecreateDown?
    ensures m in p.done || p.busy == Some(Busy(m, 0))
  {
    assert CountedIn(p.queue) == 0;
    if m in p.queue {
      var k :| 0 <= k < |p.queue| && p.queue[k] == m;
      NoneCounted(p.queue, k);
    }
  }

  /** The channel is served in order, so when a join is being handled its network's creation
      and its endpoint's reservation have been handled before it. */
  lemma JoinHandledInOrder(acts: seq<Act>)
    requires Possible(INITIAL, acts)
    ensures var p := Run(INITIAL, acts);
            && p.done <= p.sent
            && (p.busy.Some? && p.busy.value.message.kind.Join? ==>
                  var k := p.busy.value.message.kind;
                  CreationSent(p.done, k.network) && WasSent(p.done, Reserve(k.network, k.endpoint)))
  {
    RunInv(INITIAL, acts);
    var p := Run(INITIAL, acts);
    hide Run, Possible, CountedIn, DownIn, Outstanding, ExtraDones, WasSent, CreationSent;
    assert p.sent[..|p.done|] == p.done;
    if p.busy.Some? {
      assert p.sent[|p.done|] == p.busy.value.message;
    }
  }

  // -------------------------------------------------------------------------------------
  // The exception

  /** One bridge found down at start-up: one Add, two Dones, and the counter is negative. */
  lemma RecreateDownGoesNegative(n: Id)
    ensures var m := Message(0, RecreateDown(n));
            var acts := [Add(m), SendCounted(m), Take, Done, Done];
            Possible(INITIAL, acts) && Run(INITIAL, acts).counter == -1
  {
    var m := Message(0, RecreateDown(n));
    var p1 := Do(INITIAL, Add(m));
    var p2 := Do(p1, SendCounted(m));
    var p3 := Do(p2, Take);
    var p4 := Do(p3, Done);
    assert p4.counter == 0 && p4.busy == Some(Busy(m, 1));
    assert [Done] == [Done] + [] && Possible(Do(p4, Done), []);
    RunCons(p4, Done, []);
    RunCons(p3, Done, [Done]);
    RunCons(p2, Take, [Done] + [Done]);
    RunCons(p1, SendCounted(m), [Take] + ([Done] + [Done]));
    RunCons(INITIAL, Add(m), [SendCounted(m)] + ([Take] + ([Done] + [Done])));
    assert [Add(m), SendCounted(m), Take, Done, Done] == [Add(m)] + ([SendCounted(m)] + ([Take] + ([Done] + [Done])));
  }

  lemma RunCons(p: State, a: Act, rest: seq<Act>)
    requires Can(p, a) && Possible(Do(p, a), rest)
    ensures Possible(p, [a] + rest) && Run(p, [a] + rest) == Run(Do(p, a), rest)
  {
    hide Can, Do;
    assert ([a] + rest)[1..] == rest;
  }

  /** With another creation still outstanding, the extra Done lets waiters through too early:
      in every run, the counter stands at zero with work outstanding exactly when the extra
      calls of Done equal it. */
  lemma EarlyReleaseIff(acts: seq<Act>)
    requires Possible(INITIAL, acts)
    ensures var p := Run(INITIAL, acts);
            p.counter == 0 && Outstanding(p) > 0 <==> Outstanding(p) == ExtraDones(p) && ExtraDones(p) > 0
  {
    CounterTheorem(acts);
  }

  /** And it happens.  At start-up a bridge found down is rebuilt; after the first Done the counter
      is zero and start-up's own Wait returns, so requests are served.  Another network's creation
      is counted, the second Done comes, and a join gets past Wait although that creation has not
      even been sent. */
  lemma WaiterReleasedEarly(n: Id, other: Id, e: Id)
    ensures var down := Message(0, RecreateDown(n));
            var start := [Add(down), SendCounted(down), Take] + [Done];
            var served := [Add(Message(1, Create(other))), Send(Message(2, Reserve(n, e))), Done];
            && Possible(INITIAL, start) && Run(INITIAL, start).counter == 0
            && Possible(Run(INITIAL, start), served)
            && var p := Run(Run(INITIAL, start), served);
               Can(p, PassWait(Message(3, Join(n, e)))) && Message(1, Create(other)) in p.added
  {
    var down, create, reserve := Message(0, RecreateDown(n)), Message(1, Create(other)), Message(2, Reserve(n, e));
    var p3 := State(1, {}, {}, [], Some(Busy(down, 2)), [down], []);
    var p4 := State(0, {}, {}, [], Some(Busy(down, 1)), [down], []);
    var p7 := State(0, {create}, {}, [reserve], Some(Busy(down, 0)), [down, reserve], []);
    StartUp(down);
    assert Can(p3, Done) && Do(p3, Done) == p4;
    Served(down, create, reserve);
    assert Can(p7, PassWait(Message(3, Join(n, e)))) by {
      assert p7.sent[0].kind == RecreateDown(n) && p7.sent[1].kind == Reserve(n, e);
    }
    hide Can, Do;
    assert [Done] == [Done] + [] && Possible(p4, []) && Run(p4, []) == p4;
    RunCons(p3, Done, []);
    RunConcat(INITIAL, [Add(down), SendCounted(down), Take], [Done]);
  }

  lemma StartUp(down: Message)
    requires down.kind.RecreateDown?
    ensures var acts := [Add(down), SendCounted(down), Take];
            Possible(INITIAL, acts) && Run(INITIAL, acts) == State(1, {}, {}, [], Some(Busy(down, 2)), [down], [])
  {
    var p1, p2 := State(1, {down}, {}, [], None, [], []), State(1, {}, {}, [down], None, [down], []);
    assert Can(INITIAL, Add(down)) && Do(INITIAL, Add(down)) == p1;
    assert Can(p1, SendCounted(down)) && Do(p1, SendCounted(down)) == p2;
    assert Can(p2, Take) && Do(p2, Take) == State(1, {}, {}, [], Some(Busy(down, 2)), [down], []);
    RunThree(INITIAL, Add(down), SendCounted(down), Take);
  }

  lemma Served(down: Message, create: Message, reserve: Message)
    requires down.kind.RecreateDown? && create.kind.Create? && reserve.kind.Reserve?
    ensures var p4, acts := State(0, {}, {}, [], Some(Busy(down, 1)), [down], []), [Add(create), Send(reserve), Done];
            && Possible(p4, acts)
            && Run(p4, acts) == State(0, {create}, {}, [reserve], Some(Busy(down, 0)), [down, reserve], [])
  {
    var p4 := State(0, {}, {}, [], Some(Busy(down, 1)), [down], []);
    var p5 := State(1, {create}, {}, [], Some(Busy(down, 1)), [down], []);
    var p6 := State(1, {create}, {}, [reserve], Some(Busy(down, 1)), [down, reserve], []);
    assert Can(p4, Add(create)) && Do(p4, Add(create)) == p5;
    assert Can(p5, Send(reserve)) && Do(p5, Send(reserve)) == p6;
    assert Can(p6, Done);
    RunThree(p4, Add(create), Send(reserve), Done);
  }

  lemma RunThree(p: State, a: Act, b: Act, c: Act)
    requires Can(p, a) && Can(Do(p, a), b) && Can(Do(Do(p, a), b), c)
    ensures Possible(p, [a, b, c]) && Run(p, [a, b, c]) == Do(Do(Do(p, a), b), c)
  {
    hide Can, Do;
    var p1 := Do(p, a);
    var p2 := Do(p1, b);
    assert Possible(Do(p2, c), []) && [c] == [c] + [] && [b, c] == [b] + [c] && [a, b, c] == [a] + [b, c];
    RunCons(p2, c, []);
    RunCons(p1, b, [c]);
    RunCons(p, a, [b, c]);
  }

  lemma {:induction false} RunConcat(p: State, acts: seq<Act>, more: seq<Act>)
    requires Possible(p, acts) && Possible(Run(p, acts), more)
    ensures Possible(p, acts + more) && Run(p, acts + more) == Run(Run(p, acts), more)
    decreases |acts|
  {
    hide Can, Do;
    if acts == [] {
      assert acts + more == more;
    } else {
      RunConcat(Do(p, acts[0]), acts[1..], more);
      assert (acts + more)[1..] == acts[1..] + more;
    }
  }
}
