/** Lost wake-ups, deadlock and termination of the call/reply protocol. */
module ProtocolLiveness {
  import opened Protocol
  import opened ProtocolSafety

  // ------------------------------------------------------------------ lost wake-ups

  /** The sender has pushed and will still look at the receiver's flag, or notify it. */
  predicate Sending(pc: ClientPc) { pc.LoadFlag? || pc.StoreFlag? || pc.Notify? }
  predicate SendingReply(pc: ServerPc) { pc.LoadReplyFlag? || pc.StoreReplyFlag? || pc.NotifyClient? }

  /** No wake-up has been lost: a receiver that has stopped looking at a non-empty queue
      will be woken, or the sender is about to see to it. */
  predicate NoLostRequest(s: State) {
    ServerParked(s) && s.req.items != [] ==> WakePending(s.server.wakes, s.req) || Sending(s.client.pc)
  }

  predicate NoLostReply(s: State) {
    ReplyParked(s) && s.res.items != [] ==> WakePending(s.client.wakes, s.res) || SendingReply(s.server.pc)
  }

  predicate NoLost(s: State) { NoLostRequest(s) && NoLostReply(s) }

  /** The receiver clears its flag although an item has arrived since its failed pop, with
      no wake under way and no sender that would still notice. */
  predicate Race(s: State, a: Action) {
    || (a.ServerStep? && s.server.pc.Clear? && s.req.items != []
        && !WakePending(s.server.wakes, s.req) && !Sending(s.client.pc))
    || (a.ClientStep? && s.client.pc.ReplyClear? && s.res.items != []
        && !WakePending(s.client.wakes, s.res) && !SendingReply(s.server.pc))
  }

  lemma RequestLostIffRace(cfg: Config, s: State, a: Action)
    requires Control(cfg, s) && NoLost(s) && Next(cfg, s, a).faults == s.faults == {}
    requires RunsCaller(s.client.pc) ==> s.client.pc.c in s.client.callers
    ensures NoLostRequest(Next(cfg, s, a)) <==> !(a.ServerStep? && Race(s, a))
  {}

  lemma ReplyLostIffRace(cfg: Config, s: State, a: Action)
    requires Control(cfg, s) && NoLost(s) && Next(cfg, s, a).faults == s.faults == {}
    requires RunsCaller(s.client.pc) ==> s.client.pc.c in s.client.callers
    ensures NoLostReply(Next(cfg, s, a)) <==> !(a.ClientStep? && Race(s, a))
  {}

  /** A step loses a wake-up exactly if it is such a race. */
  lemma LostIffRace(cfg: Config, s: State, a: Action)
    requires cfg.Valid() && Inv(cfg, s) && NoLost(s)
    ensures NoLost(Next(cfg, s, a)) <==> !Race(s, a)
  {
    StepKeeps(cfg, s, a);
    KnownCaller(cfg, s);
    RequestLostIffRace(cfg, s, a);
    ReplyLostIffRace(cfg, s, a);
  }

  /** No wake-up is lost in any state of the run. */
  predicate NeverLost(cfg: Config, s: State, actions: seq<Action>)
    decreases |actions|
  {
    NoLost(s) && (actions == [] || NeverLost(cfg, Next(cfg, s, actions[0]), actions[1..]))
  }

  predicate RaceFree(cfg: Config, s: State, actions: seq<Action>)
    decreases |actions|
  {
    actions == [] || (!Race(s, actions[0]) && RaceFree(cfg, Next(cfg, s, actions[0]), actions[1..]))
  }

  lemma {:induction false} NeverLostIffRaceFree(cfg: Config, s: State, actions: seq<Action>)
    requires cfg.Valid() && Inv(cfg, s) && NoLost(s)
    ensures NeverLost(cfg, s, actions) <==> RaceFree(cfg, s, actions)
    decreases |actions|
  {
    if actions != [] {
      var t := Next(cfg, s, actions[0]);
      LostIffRace(cfg, s, actions[0]);
      StepKeeps(cfg, s, actions[0]);
      if NoLost(t) { NeverLostIffRaceFree(cfg, t, actions[1..]); }
    }
  }

  lemma {:induction false} AtomicClearIsRaceFree(cfg: Config, s: State, actions: seq<Action>)
    requires cfg.Valid() && cfg.atomicClear && Inv(cfg, s)
    ensures RaceFree(cfg, s, actions)
    decreases |actions|
  {
    if actions != [] {
      StepKeeps(cfg, s, actions[0]);
      AtomicClearIsRaceFree(cfg, Next(cfg, s, actions[0]), actions[1..]);
    }
  }

  /** Every run of the code loses no wake-up if and only if it is free of such races; a run in which
      the failed pop and the clear are one step always is. */
  lemma NoLostWakeups(cfg: Config, actions: seq<Action>)
    requires cfg.Valid()
    ensures NeverLost(cfg, Init(cfg), actions) <==> RaceFree(cfg, Init(cfg), actions)
    ensures cfg.atomicClear ==> NeverLost(cfg, Init(cfg), actions)
  {
    InitInv(cfg);
    NeverLostIffRaceFree(cfg, Init(cfg), actions);
    if cfg.atomicClear { AtomicClearIsRaceFree(cfg, Init(cfg), actions); }
  }

  // ------------------------------------------------------------------ deadlock

  /** No action of any thread changes anything any more. */
  ghost predicate Quiescent(cfg: Config, s: State) {
    forall a :: Next(cfg, s, a) == s
  }

  /** Every call has been made and answered. */
  ghost predicate Done(cfg: Config, s: State) {
    && (forall c :: c in cfg.order ==>
          c in s.client.callers && s.client.callers[c].phase.Finished? && s.client.callers[c].got == s.client.callers[c].sent)
    && (cfg.order != [] ==> s.client.budget == 0)
  }

  lemma QuietClient(cfg: Config, s: State)
    requires ClientNext(cfg, s, 0) == s == ClientInterrupt(s) && !s.client.stalled && s.faults == {}
    requires RunsCaller(s.client.pc) ==> s.client.pc.c in s.client.callers
    ensures s.client.pc.Idle? && s.client.ready == [] && !WakePending(s.client.wakes, s.res)
  {}

  lemma QuietServer(cfg: Config, s: State)
    requires ServerNext(cfg, s) == s == ServerInterrupt(s) && s.faults == {}
    ensures s.server.pc.Exited? || (s.server.pc.Suspended? && !WakePending(s.server.wakes, s.req))
  {}

  lemma QuiescentControl(cfg: Config, s: State)
    requires ClientOk(cfg, s.client) && Control(cfg, s) && s.faults == {} && Quiescent(cfg, s)
    ensures s.client.pc.Idle? && s.client.ready == [] && !WakePending(s.client.wakes, s.res)
    ensures s.server.pc.Exited? || (s.server.pc.Suspended? && !WakePending(s.server.wakes, s.req))
  {
    assert Next(cfg, s, ClientStep(0)) == s;
    assert Next(cfg, s, ServerStep) == s;
    assert Next(cfg, s, ClientIrq) == s;
    assert Next(cfg, s, ServerIrq) == s;
    KnownCaller(cfg, s);
    QuietClient(cfg, s);
    QuietServer(cfg, s);
  }

  lemma QuiescentEmpty(cfg: Config, s: State)
    requires Control(cfg, s) && NoLost(s)
    requires s.client.pc.Idle? && !WakePending(s.client.wakes, s.res)
    requires s.server.pc.Exited? || (s.server.pc.Suspended? && !WakePending(s.server.wakes, s.req))
    ensures s.req.items == s.res.items == [] && ClientHand(s.client.pc) == [] && ServerHand(s.server.pc) == []
  {}

  /** A state without lost wake-ups in which nothing can move is one in which all work is done. */
  lemma QuiescentIsDone(cfg: Config, s: State)
    requires Inv(cfg, s) && NoLost(s) && Quiescent(cfg, s)
    ensures Done(cfg, s)
  {
    QuiescentControl(cfg, s);
    QuiescentEmpty(cfg, s);
    forall c | c in cfg.order
      ensures c in s.client.callers && s.client.callers[c].phase.Finished? && s.client.callers[c].got == s.client.callers[c].sent
      ensures s.client.budget == 0
    {
      assert CallerOk(s.client, c);
      assert Copies(s, c) == B(Pending(s.client.callers, c));
    }
    if cfg.order != [] { assert cfg.order[0] in cfg.order; }
  }

  lemma SomeCurrent(cs: Callers, q: seq<Item>)
    requires AllCurrent(cs, q)
    ensures q == [] || exists item :: Current(cs, item)
  {
    if q != [] { assert Current(cs, q[0]); }
  }

  /** Once all work is done, nothing is left in either queue. */
  lemma DoneIsEmpty(cfg: Config, s: State)
    requires Inv(cfg, s) && Done(cfg, s)
    ensures s.req.items == s.res.items == []
  {
    SomeCurrent(s.client.callers, s.req.items);
    SomeCurrent(s.client.callers, s.res.items);
    forall item: Item ensures !Current(s.client.callers, item) {
      assert item.cid in s.client.callers ==> item.cid in cfg.order;
    }
  }

  /** Where nothing can move any more, all work is done if and only if no wake-up is lost, which is to say
      that both queues are empty. */
  lemma QuiescentDoneIff(cfg: Config, s: State)
    requires Inv(cfg, s) && Quiescent(cfg, s)
    ensures Done(cfg, s) <==> NoLost(s)
    ensures Done(cfg, s) <==> s.req.items == s.res.items == []
  {
    if Done(cfg, s) {
      DoneIsEmpty(cfg, s);
    } else if NoLost(s) {
      QuiescentIsDone(cfg, s);
    }
  }

  // ------------------------------------------------------------------ termination

  function ClientWork(pc: ClientPc): nat {
    match pc
    case Idle => 0
    case Check(_) => 1
    case Push(_, _) => 26
    case LoadFlag(_) => 9
    case StoreFlag(_) => 8
    case Notify(_) => 7
    case Suspend(_) => 1
    case Take(_) => 2
    case ReplyPop => 3
    case ReplyDeliver(_) => 7
    case ReplyClear => 2
    case ReplyYield => 1
  }

  function ServerWork(pc: ServerPc): nat {
    match pc
    case Suspended => 0
    case Pop => 3
    case Answer(_) => 18
    case LoadReplyFlag => 12
    case StoreReplyFlag => 11
    case NotifyClient => 10
    case Count => 4
    case Clear => 2
    case Yield => 1
    case Exited => 0
  }

  function WakeWork(w: Wakes, lane: Lane): nat { 4 * w.ready + 4 * B(w.delayed) + 5 * B(lane.note) }

  /** A bound on the number of steps that the system can still take. */
  function Work(s: State): nat {
    26 * s.client.budget + 16 * |s.req.items| + 5 * |s.res.items| + 3 * |s.client.ready|
    + ClientWork(s.client.pc) + ServerWork(s.server.pc)
    + WakeWork(s.server.wakes, s.req) + WakeWork(s.client.wakes, s.res)
  }

  lemma ServerQueueWorks(cfg: Config, s: State)
    requires ServerNext(cfg, s).faults == s.faults == {}
    requires s.server.pc.Pop? || s.server.pc.Answer?
    ensures Work(ServerNext(cfg, s)) < Work(s)
  {}

  lemma ServerFlagWorks(cfg: Config, s: State)
    requires SendingReply(s.server.pc) || s.server.pc.Count?
    ensures Work(ServerNext(cfg, s)) < Work(s)
  {}

  lemma ServerWakeWorks(cfg: Config, s: State)
    requires s.server.pc.Clear? || s.server.pc.Yield? || s.server.pc.Suspended?
    requires s.server.pc.Suspended? ==> s.server.wakes.ready > 0 || s.server.wakes.delayed
    ensures Work(ServerNext(cfg, s)) < Work(s)
  {}

  lemma ServerWorks(cfg: Config, s: State)
    requires ServerNext(cfg, s).faults == s.faults == {} && ServerNext(cfg, s) != s
    ensures Work(ServerNext(cfg, s)) < Work(s)
  {
    if s.server.pc.Pop? || s.server.pc.Answer? {
      ServerQueueWorks(cfg, s);
    } else if SendingReply(s.server.pc) || s.server.pc.Count? {
      ServerFlagWorks(cfg, s);
    } else {
      ServerWakeWorks(cfg, s);
    }
  }

  lemma FetchWorks(s: State)
    requires Fetch(s).faults == s.faults == {} && Fetch(s) != s && s.client.pc.Idle?
    ensures Work(Fetch(s)) < Work(s)
  {}

  lemma DeliverWorks(cfg: Config, s: State)
    requires s.client.pc.ReplyDeliver? && Deliver(cfg, s, s.client.pc.hand).faults == s.faults == {}
    ensures Work(Deliver(cfg, s, s.client.pc.hand)) < Work(s)
  {}

  lemma ReplyWorks(cfg: Config, s: State)
    requires ReplyActive(s.client.pc) && ReplyStep(cfg, s).faults == s.faults == {}
    ensures Work(ReplyStep(cfg, s)) < Work(s)
  {
    if s.client.pc.ReplyDeliver? { DeliverWorks(cfg, s); }
  }

  lemma CallerWorks(cfg: Config, s: State, msg: nat)
    requires RunsCaller(s.client.pc) && s.client.pc.c in s.client.callers
    requires CallerStep(cfg, s, msg).faults == s.faults == {}
    ensures Work(CallerStep(cfg, s, msg)) < Work(s)
  {}

  lemma InterruptWorks(s: State)
    ensures ClientInterrupt(s) != s ==> Work(ClientInterrupt(s)) < Work(s)
    ensures ServerInterrupt(s) != s ==> Work(ServerInterrupt(s)) < Work(s)
  {}

  /** Every action that changes anything uses up work, at either grain. */
  lemma StepWorks(cfg: Config, s: State, a: Action)
    requires cfg.Valid() && Inv(cfg, s) && Next(cfg, s, a) != s
    ensures Work(Next(cfg, s, a)) < Work(s)
  {
    StepKeeps(cfg, s, a);
    KnownCaller(cfg, s);
    match a {
      case ClientStep(msg) =>
        if s.client.pc.Idle? {
          FetchWorks(s);
        } else if ReplyActive(s.client.pc) {
          ReplyWorks(cfg, s);
        } else {
          CallerWorks(cfg, s, msg);
        }
      case ServerStep => ServerWorks(cfg, s);
      case _ => InterruptWorks(s);
    }
  }

  /** Every action of the run changes something. */
  predicate Effective(cfg: Config, s: State, actions: seq<Action>)
    decreases |actions|
  {
    actions == [] || (Next(cfg, s, actions[0]) != s && Effective(cfg, Next(cfg, s, actions[0]), actions[1..]))
  }

  lemma {:induction false} EffectiveRunsAreShort(cfg: Config, s: State, actions: seq<Action>)
    requires cfg.Valid() && Inv(cfg, s) && Effective(cfg, s, actions)
    ensures |actions| + Work(Run(cfg, s, actions)) <= Work(s)
    decreases |actions|
  {
    if actions != [] {
      StepKeeps(cfg, s, actions[0]);
      StepWorks(cfg, s, actions[0]);
      EffectiveRunsAreShort(cfg, Next(cfg, s, actions[0]), actions[1..]);
    }
  }

  lemma {:induction false} NeverLostAtEnd(cfg: Config, s: State, actions: seq<Action>)
    requires NeverLost(cfg, s, actions)
    ensures NoLost(Run(cfg, s, actions))
    decreases |actions|
  {
    if actions != [] { NeverLostAtEnd(cfg, Next(cfg, s, actions[0]), actions[1..]); }
  }

  /** Every schedule of effective steps is bounded, whatever the interleaving; and a race-free one that
      can be extended no further has completed all the calls, each with its own reply. */
  lemma RaceFreeRunsComplete(cfg: Config, actions: seq<Action>)
    requires cfg.Valid() && Effective(cfg, Init(cfg), actions)
    ensures |actions| <= 26 * cfg.sendNum + 3 * |cfg.order| + 8
    ensures RaceFree(cfg, Init(cfg), actions) && Quiescent(cfg, Run(cfg, Init(cfg), actions)) && cfg.order != [] ==>
              && Done(cfg, Run(cfg, Init(cfg), actions))
              && Started(Run(cfg, Init(cfg), actions).client.callers, cfg.order) == cfg.sendNum
  {
    InitInv(cfg);
    EffectiveRunsAreShort(cfg, Init(cfg), actions);
    EveryRunMatchesReplies(cfg, actions);
    RunKeeps(cfg, Init(cfg), actions);
    if RaceFree(cfg, Init(cfg), actions) && Quiescent(cfg, Run(cfg, Init(cfg), actions)) {
      NeverLostIffRaceFree(cfg, Init(cfg), actions);
      NeverLostAtEnd(cfg, Init(cfg), actions);
      QuiescentIsDone(cfg, Run(cfg, Init(cfg), actions));
    }
  }

  /** A run that can be extended no further has completed all the calls if and only if it ends with no lost
      wake-up, that is with both queues empty; an earlier loss that a later sender has repaired does no harm.
      Otherwise some caller waits for ever. */
  lemma MaximalRunCompletesIff(cfg: Config, actions: seq<Action>)
    requires cfg.Valid() && Quiescent(cfg, Run(cfg, Init(cfg), actions))
    ensures var s := Run(cfg, Init(cfg), actions);
      && (Done(cfg, s) <==> NoLost(s))
      && (Done(cfg, s) <==> s.req.items == s.res.items == [])
      && (!Done(cfg, s) ==> exists c :: c in cfg.order && c in s.client.callers && s.client.callers[c].phase.Waiting?)
  {
    InitInv(cfg);
    RunKeeps(cfg, Init(cfg), actions);
    var s := Run(cfg, Init(cfg), actions);
    QuiescentDoneIff(cfg, s);
    if !Done(cfg, s) {
      QuiescentControl(cfg, s);
      var item := if s.req.items != [] then s.req.items[0] else s.res.items[0];
      assert Current(s.client.callers, item);
      assert CallerOk(s.client, item.cid);
      OnlyQueued(s, item);
    }
  }

  lemma OnlyQueued(s: State, item: Item)
    requires OnePlace(s) && (item in s.req.items || item in s.res.items)
    ensures item.cid !in s.client.slots
  {
    assert Copies(s, item.cid) <= 1;
    if item in s.req.items {
      var i :| 0 <= i < |s.req.items| && s.req.items[i] == item;
      OccursBound(s.req.items, item.cid, i);
    } else {
      var i :| 0 <= i < |s.res.items| && s.res.items[i] == item;
      OccursBound(s.res.items, item.cid, i);
    }
  }

  // ------------------------------------------------------------------ a run that hangs

  lemma {:induction false} RunAppend(cfg: Config, s: State, first: seq<Action>, rest: seq<Action>)
    ensures Run(cfg, s, first + rest) == Run(cfg, Run(cfg, s, first), rest)
    decreases |first|
  {
    if first == [] {
      assert first + rest == rest;
    } else {
      assert (first + rest)[1..] == first[1..] + rest;
      RunAppend(cfg, Next(cfg, s, first[0]), first[1..], rest);
    }
  }

  ghost predicate Reaches(cfg: Config, s: State, t: State) {
    exists actions :: Run(cfg, s, actions) == t
  }

  lemma ReachesThen(cfg: Config, s: State, t: State, u: State)
    requires Reaches(cfg, s, t) && Reaches(cfg, t, u)
    ensures Reaches(cfg, s, u)
  {
    var first :| Run(cfg, s, first) == t;
    var rest :| Run(cfg, t, rest) == u;
    RunAppend(cfg, s, first, rest);
  }

  lemma ReachesNext(cfg: Config, s: State, a: Action)
    ensures Reaches(cfg, s, Next(cfg, s, a))
  {
    assert Run(cfg, s, [a]) == Run(cfg, Next(cfg, s, a), [a][1..]);
  }

  /** Two callers, one call each, at the code's own grain. */
  const Two := Config([1, 2], 2, 4096, false)

  function Server(n: nat): seq<Action> { if n == 0 then [] else [ServerStep] + Server(n - 1) }
  function Client(n: nat): seq<Action> { if n == 0 then [] else [ClientStep(7)] + Client(n - 1) }

  function Item1(): Item { Item(1, 7) }
  function Item2(): Item { Item(2, 7) }

  /** The receiver finds its queue empty and suspends; so does the reply coroutine. */
  function Parked(): State {
    State(Lane([], false, false), Lane([], false, false),
          Protocol.Client.Client(Idle, map[1 := Caller(Runnable, [], []), 2 := Caller(Runnable, [], [])], [1, 2], map[],
                 2, 0, true, Wakes(0, false), false),
          Protocol.Server.Server(Suspended, Wakes(0, false), 0), {})
  }

  /** Caller 1 has pushed its request and is about to look at the flag. */
  function Pushed(): State {
    State(Lane([Item1()], false, false), Lane([], false, false),
          Protocol.Client.Client(LoadFlag(1), map[1 := Caller(Running, [Item1()], []), 2 := Caller(Runnable, [], [])], [2], map[],
                 1, 0, true, Wakes(0, false), false),
          Protocol.Server.Server(Suspended, Wakes(0, false), 0), {})
  }

  /** Caller 1 has called and notified the server. */
  function Called(): State {
    State(Lane([Item1()], true, true), Lane([], false, false),
          Protocol.Client.Client(Idle, map[1 := Caller(Waiting, [Item1()], []), 2 := Caller(Runnable, [], [])], [2], map[],
                 1, 0, true, Wakes(0, false), false),
          Protocol.Server.Server(Suspended, Wakes(0, false), 0), {})
  }

  /** The server has answered, has found the queue empty again, and is about to clear its flag. */
  function AboutToClear(): State {
    State(Lane([], true, false), Lane([Item1()], true, true),
          Called().client,
          Protocol.Server.Server(Clear, Wakes(0, false), 1), {})
  }

  /** Caller 2 has pushed its request and, seeing the flag up, has not notified; the server has
      cleared its flag and suspended. */
  function Lost(): State {
    State(Lane([Item2()], false, false), Lane([Item1()], true, true),
          Protocol.Client.Client(Idle, map[1 := Caller(Waiting, [Item1()], []), 2 := Caller(Waiting, [Item2()], [])], [], map[],
                 0, 0, true, Wakes(0, false), false),
          Protocol.Server.Server(Suspended, Wakes(0, false), 1), {})
  }

  /** The reply coroutine has put caller 1's reply into its slot and has suspended again. */
  function Delivered(): State {
    State(Lane([Item2()], false, false), Lane([], false, false),
          Protocol.Client.Client(Idle, map[1 := Caller(Woken, [Item1()], []), 2 := Caller(Waiting, [Item2()], [])], [1],
                 map[1 := Item1()], 0, 1, true, Wakes(0, false), false),
          Protocol.Server.Server(Suspended, Wakes(0, false), 1), {})
  }

  /** Caller 1 has its reply and is finished. Caller 2 waits for ever. */
  function Hung(): State {
    State(Lane([Item2()], false, false), Lane([], false, false),
          Protocol.Client.Client(Idle, map[1 := Caller(Finished, [Item1()], [Item1()]), 2 := Caller(Waiting, [Item2()], [])], [],
                 map[], 0, 1, true, Wakes(0, false), false),
          Protocol.Server.Server(Suspended, Wakes(0, false), 1), {})
  }

  lemma ReachServerParked()
    ensures Reaches(Two, Init(Two), Init(Two).(server := Parked().server))
  {
    assert Run(Two, Init(Two), Server(4)) == Init(Two).(server := Parked().server);
  }

  lemma ReachParked()
    ensures Reaches(Two, Init(Two), Parked())
  {
    var s := Init(Two).(server := Parked().server);
    var t := Run(Two, s, Client(4));
    assert t.client.callers == Parked().client.callers;
    assert t == Parked();
    ReachServerParked();
    ReachesThen(Two, Init(Two), s, Parked());
  }

  lemma ReachPushed()
    ensures Reaches(Two, Parked(), Pushed())
  {
    var t := Run(Two, Parked(), Client(3));
    assert [] + [Item1()] == [Item1()] && [1, 2][1..] == [2];
    assert t.client.callers == Pushed().client.callers;
    assert t.req == Pushed().req && t.client.ready == [2];
    assert t == Pushed();
  }

  lemma ReachCalled()
    ensures Reaches(Two, Pushed(), Called())
  {
    var t := Run(Two, Pushed(), Client(4));
    assert t.client.callers == Called().client.callers;
    assert t == Called();
  }

  /** The server has taken caller 1's request. */
  function Taken(): State {
    Called().(req := Lane([], true, false), server := Protocol.Server.Server(Answer(Item1()), Wakes(0, false), 0))
  }

  lemma ReachTaken()
    ensures Reaches(Two, Called(), Taken())
  {
    var s := Next(Two, Called(), ServerIrq);
    var t := Run(Two, s, Server(2));
    assert t.req.items == [];
    assert t == Taken();
    ReachesNext(Two, Called(), ServerIrq);
    ReachesThen(Two, Called(), s, Taken());
  }

  lemma ReachAboutToClear()
    ensures Reaches(Two, Called(), AboutToClear())
  {
    var t := Run(Two, Taken(), Server(6));
    assert t.res.items == [Item1()];
    assert t == AboutToClear();
    ReachTaken();
    ReachesThen(Two, Called(), Taken(), AboutToClear());
  }

  /** Caller 2 has made its request but has not pushed it yet. */
  function SecondRequest(): State {
    AboutToClear().(client := AboutToClear().client.(
      pc := Push(2, Item2()), ready := [], budget := 0,
      callers := map[1 := Caller(Waiting, [Item1()], []), 2 := Caller(Running, [Item2()], [])]))
  }

  /** Caller 2 has pushed and suspended, and the server has not cleared its flag yet. */
  function SecondCall(): State {
    Lost().(req := Lane([Item2()], true, false), server := AboutToClear().server)
  }

  lemma ReachSecondRequest()
    ensures Reaches(Two, AboutToClear(), SecondRequest())
  {
    var t := Run(Two, AboutToClear(), Client(2));
    assert [] + [Item2()] == [Item2()];
    assert t.client.callers == SecondRequest().client.callers;
    assert t.client.ready == [];
    assert t == SecondRequest();
  }

  lemma ReachSecondCall()
    ensures Reaches(Two, AboutToClear(), SecondCall())
  {
    var t := Run(Two, SecondRequest(), Client(3));
    assert t.client.callers == SecondCall().client.callers;
    assert t.req.items == [Item2()];
    assert t == SecondCall();
    ReachSecondRequest();
    ReachesThen(Two, AboutToClear(), SecondRequest(), SecondCall());
  }

  lemma ReachLost()
    ensures Reaches(Two, AboutToClear(), Lost())
  {
    assert Run(Two, SecondCall(), Server(2)) == Lost();
    ReachSecondCall();
    ReachesThen(Two, AboutToClear(), SecondCall(), Lost());
  }

  /** The reply coroutine has been woken and is about to deliver caller 1's reply. */
  function Delivering(): State {
    Lost().(res := Lane([], true, false), client := Lost().client.(pc := ReplyDeliver(Item1())))
  }

  lemma ReachDelivering()
    ensures Reaches(Two, Lost(), Delivering())
  {
    var s := Next(Two, Lost(), ClientIrq);
    var t := Run(Two, s, Client(2));
    assert t.res.items == [];
    assert t == Delivering();
    ReachesNext(Two, Lost(), ClientIrq);
    ReachesThen(Two, Lost(), s, Delivering());
  }

  lemma ReachDelivered()
    ensures Reaches(Two, Lost(), Delivered())
  {
    var t := Run(Two, Delivering(), Client(4));
    assert t.client.callers == Delivered().client.callers;
    assert t.client.ready == [1];
    assert t == Delivered();
    ReachDelivering();
    ReachesThen(Two, Lost(), Delivering(), Delivered());
  }

  /** Caller 1 has taken its reply. */
  function Resumed(): State {
    Delivered().(client := Delivered().client.(
      pc := Check(1), ready := [], slots := map[],
      callers := map[1 := Caller(Running, [Item1()], [Item1()]), 2 := Caller(Waiting, [Item2()], [])]))
  }

  lemma ReachResumed()
    ensures Reaches(Two, Delivered(), Resumed())
  {
    var t := Run(Two, Delivered(), Client(2));
    assert [] + [Item1()] == [Item1()];
    assert t.client.callers == Resumed().client.callers;
    assert t.client.ready == [] && t.client.slots == map[];
    assert t == Resumed();
  }

  lemma ReachHung()
    ensures Reaches(Two, Delivered(), Hung())
  {
    var t := Next(Two, Resumed(), ClientStep(7));
    assert t.client.callers == Hung().client.callers;
    assert t == Hung();
    ReachResumed();
    ReachesNext(Two, Resumed(), ClientStep(7));
    ReachesThen(Two, Delivered(), Resumed(), Hung());
  }

  lemma HungForEver()
    ensures Quiescent(Two, Hung()) && !Done(Two, Hung()) && !NoLost(Hung())
  {
    assert 2 in Two.order;
  }

  /** At the code's grain a wake-up can be lost for good: some run ends with a waiting caller, a
      non-empty request queue, and no action that could ever change anything. */
  lemma LostWakeupHangs()
    ensures Reaches(Two, Init(Two), Hung()) && Quiescent(Two, Hung())
    ensures Hung().client.callers[2].phase == Waiting && !Done(Two, Hung()) && !NoLost(Hung())
  {
    ReachParked();
    ReachPushed();
    ReachCalled();
    ReachAboutToClear();
    ReachLost();
    ReachDelivered();
    ReachHung();
    HungForEver();
    ReachesThen(Two, Init(Two), Parked(), Pushed());
    ReachesThen(Two, Init(Two), Pushed(), Called());
    ReachesThen(Two, Init(Two), Called(), AboutToClear());
    ReachesThen(Two, Init(Two), AboutToClear(), Lost());
    ReachesThen(Two, Init(Two), Lost(), Delivered());
    ReachesThen(Two, Init(Two), Delivered(), Hung());
  }
}
