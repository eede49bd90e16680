/** What happens along whole runs of the call/reply protocol: how many interrupts are sent, and in which order
    requests are served and callers run. */
module ProtocolTraces {
  import opened Basics
  import opened Protocol
  import opened ProtocolSafety

  // ------------------------------------------------------------------ interrupts

  /** The two directions: requests to the server, replies to the client. */
  datatype Direction = Requests | Replies

  predicate Flag(d: Direction, s: State) { if d.Requests? then s.req.flag else s.res.flag }

  /** The sender is about to raise the flag, or has raised it and is about to send the interrupt. */
  predicate Raising(d: Direction, s: State) { if d.Requests? then s.client.pc.StoreFlag? else s.server.pc.StoreReplyFlag? }
  predicate Notifying(d: Direction, s: State) { if d.Requests? then s.client.pc.Notify? else s.server.pc.NotifyClient? }

  /** A sender that is about to raise a flag finds it down. */
  predicate RaisesOnce(d: Direction, s: State) { Raising(d, s) ==> !Flag(d, s) }

  /** The number of interrupts that a step sends. */
  function Sent(d: Direction, s: State, a: Action): nat {
    if d.Requests? then B(a.ClientStep? && s.client.pc.Notify?) else B(a.ServerStep? && s.server.pc.NotifyClient?)
  }

  /** Whether the receiver of that direction stores to its flag in this step, having found its queue empty. */
  predicate Clears(d: Direction, cfg: Config, s: State, a: Action) {
    if d.Requests? then
      a.ServerStep? && (s.server.pc.Clear? || (cfg.atomicClear && s.server.pc.Pop? && s.req.items == []))
    else
      a.ClientStep? && (s.client.pc.ReplyClear? || (cfg.atomicClear && s.client.pc.ReplyPop? && s.res.items == []))
  }

  /** The number of raised flags that a step clears. */
  function Lowered(d: Direction, cfg: Config, s: State, a: Action): nat { B(Clears(d, cfg, s, a) && Flag(d, s)) }

  lemma ClientRaisesOnce(cfg: Config, s: State, msg: nat, d: Direction)
    requires RaisesOnce(d, s)
    ensures RaisesOnce(d, ClientNext(cfg, s, msg))
  {}

  lemma ServerRaisesOnce(cfg: Config, s: State, d: Direction)
    requires RaisesOnce(d, s)
    ensures RaisesOnce(d, ServerNext(cfg, s))
  {}

  lemma StepRaisesOnce(cfg: Config, s: State, a: Action, d: Direction)
    requires RaisesOnce(d, s)
    ensures RaisesOnce(d, Next(cfg, s, a))
  {
    match a {
      case ClientStep(msg) => ClientRaisesOnce(cfg, s, msg, d);
      case ServerStep => ServerRaisesOnce(cfg, s, d);
      case _ =>
    }
  }

  lemma ClientBalances(cfg: Config, s: State, msg: nat, d: Direction)
    requires RaisesOnce(d, s) && (RunsCaller(s.client.pc) ==> s.client.pc.c in s.client.callers)
    ensures var a, t := ClientStep(msg), ClientNext(cfg, s, msg);
      Sent(d, s, a) + B(Notifying(d, t)) + B(Flag(d, s)) == Lowered(d, cfg, s, a) + B(Flag(d, t)) + B(Notifying(d, s))
  {}

  lemma ServerBalances(cfg: Config, s: State, d: Direction)
    requires RaisesOnce(d, s)
    ensures var a, t := ServerStep, ServerNext(cfg, s);
      Sent(d, s, a) + B(Notifying(d, t)) + B(Flag(d, s)) == Lowered(d, cfg, s, a) + B(Flag(d, t)) + B(Notifying(d, s))
  {}

  /** A flag is raised once for every interrupt, and only when it is down. */
  lemma StepBalances(cfg: Config, s: State, a: Action, d: Direction)
    requires RaisesOnce(d, s) && (RunsCaller(s.client.pc) ==> s.client.pc.c in s.client.callers)
    ensures var t := Next(cfg, s, a);
      Sent(d, s, a) + B(Notifying(d, t)) + B(Flag(d, s)) == Lowered(d, cfg, s, a) + B(Flag(d, t)) + B(Notifying(d, s))
  {
    match a {
      case ClientStep(msg) => ClientBalances(cfg, s, msg, d);
      case ServerStep => ServerBalances(cfg, s, d);
      case _ =>
    }
  }

  function AllSent(d: Direction, cfg: Config, s: State, actions: seq<Action>): nat
    decreases |actions|
  {
    if actions == [] then 0 else Sent(d, s, actions[0]) + AllSent(d, cfg, Next(cfg, s, actions[0]), actions[1..])
  }

  function AllLowered(d: Direction, cfg: Config, s: State, actions: seq<Action>): nat
    decreases |actions|
  {
    if actions == [] then 0
    else Lowered(d, cfg, s, actions[0]) + AllLowered(d, cfg, Next(cfg, s, actions[0]), actions[1..])
  }

  lemma {:induction false} RunBalances(cfg: Config, s: State, actions: seq<Action>, d: Direction)
    requires cfg.Valid() && Inv(cfg, s) && RaisesOnce(d, s)
    ensures var t := Run(cfg, s, actions);
      && RaisesOnce(d, t)
      && AllSent(d, cfg, s, actions) + B(Notifying(d, t)) + B(Flag(d, s))
         == AllLowered(d, cfg, s, actions) + B(Flag(d, t)) + B(Notifying(d, s))
    decreases |actions|
  {
    if actions != [] {
      var a := actions[0];
      KnownCaller(cfg, s);
      StepKeeps(cfg, s, a);
      StepRaisesOnce(cfg, s, a, d);
      StepBalances(cfg, s, a, d);
      RunBalances(cfg, Next(cfg, s, a), actions[1..], d);
    }
  }

  /** In every interleaving and in either direction: a flag is only ever raised when it is down, and the
      interrupts sent, with the one about to be sent, are exactly as many as the times a raised flag has been
      cleared, plus one if it is up now. So all answers that arrive between two clears cost one interrupt. */
  lemma InterruptsAreFew(cfg: Config, actions: seq<Action>, d: Direction)
    requires cfg.Valid()
    ensures var s := Run(cfg, Init(cfg), actions);
      && (Raising(d, s) ==> !Flag(d, s))
      && AllSent(d, cfg, Init(cfg), actions) + B(Notifying(d, s)) == AllLowered(d, cfg, Init(cfg), actions) + B(Flag(d, s))
      && AllSent(d, cfg, Init(cfg), actions) <= AllLowered(d, cfg, Init(cfg), actions) + 1
  {
    InitInv(cfg);
    RunBalances(cfg, Init(cfg), actions, d);
  }

  /** An interrupt has been sent and not taken; its handler's action; the deferred wake that the handler leaves. */
  predicate Noted(d: Direction, s: State) { if d.Requests? then s.req.note else s.res.note }
  function Handler(d: Direction): Action { if d.Requests? then ServerIrq else ClientIrq }
  predicate Deferred(d: Direction, s: State) { if d.Requests? then s.server.wakes.delayed else s.client.wakes.delayed }

  /** A notification step leaves an interrupt pending, and nothing but the handler removes it. */
  lemma NoteStep(cfg: Config, s: State, a: Action, d: Direction)
    requires RunsCaller(s.client.pc) ==> s.client.pc.c in s.client.callers
    requires Sent(d, s, a) == 1 || (Noted(d, s) && a != Handler(d))
    ensures Noted(d, Next(cfg, s, a))
  {}

  lemma {:induction false} NoteStays(cfg: Config, s: State, actions: seq<Action>, d: Direction)
    requires cfg.Valid() && Inv(cfg, s) && Noted(d, s) && Handler(d) !in actions
    ensures Inv(cfg, Run(cfg, s, actions)) && Noted(d, Run(cfg, s, actions))
    decreases |actions|
  {
    if actions != [] {
      assert actions[0] in actions;
      KnownCaller(cfg, s);
      NoteStep(cfg, s, actions[0], d);
      StepKeeps(cfg, s, actions[0]);
      NoteStays(cfg, Next(cfg, s, actions[0]), actions[1..], d);
    }
  }

  lemma SentIsNoted(cfg: Config, s: State, a: Action, d: Direction)
    requires cfg.Valid() && Inv(cfg, s) && Sent(d, s, a) == 1
    ensures Inv(cfg, Next(cfg, s, a)) && Noted(d, Next(cfg, s, a))
  {
    KnownCaller(cfg, s);
    NoteStep(cfg, s, a, d);
    StepKeeps(cfg, s, a);
  }

  lemma HandlerTakes(cfg: Config, s: State, d: Direction)
    requires Noted(d, s)
    ensures Deferred(d, Next(cfg, s, Handler(d))) && !Noted(d, Next(cfg, s, Handler(d)))
  {}

  /** Every interrupt arrives: whatever happens between its sending and the handler, the handler then leaves a
      deferred wake of the receiver and nothing pending. */
  lemma InterruptsArrive(cfg: Config, before: seq<Action>, a: Action, between: seq<Action>, d: Direction)
    requires cfg.Valid() && Sent(d, Run(cfg, Init(cfg), before), a) == 1 && Handler(d) !in between
    ensures var s := Run(cfg, Next(cfg, Run(cfg, Init(cfg), before), a), between);
      Noted(d, s) && Deferred(d, Next(cfg, s, Handler(d))) && !Noted(d, Next(cfg, s, Handler(d)))
  {
    InitInv(cfg);
    RunKeeps(cfg, Init(cfg), before);
    var s := Run(cfg, Init(cfg), before);
    SentIsNoted(cfg, s, a, d);
    NoteStays(cfg, Next(cfg, s, a), between, d);
    HandlerTakes(cfg, Run(cfg, Next(cfg, s, a), between), d);
  }

  // ------------------------------------------------------------------ order of service

  /** The stages of a request: made by a caller, pushed, answered, delivered. */
  datatype Stage = Asked | Pushed | Answered | Delivered

  /** The request that reaches a stage in this step, if any. */
  function At(stage: Stage, cfg: Config, s: State, a: Action): seq<Item> {
    var pc := s.client.pc;
    match stage
    case Asked => if a.ClientStep? && pc.Check? && s.client.budget > 0 then [Item(pc.c, a.msg)] else []
    case Pushed => if a.ClientStep? && pc.Push? && |s.req.items| < cfg.capacity then [pc.item] else []
    case Answered =>
      if a.ServerStep? && s.server.pc.Answer? && |s.res.items| < cfg.capacity then [s.server.pc.hand] else []
    case Delivered => if a.ClientStep? && pc.ReplyDeliver? then [pc.hand] else []
  }

  function After(stage: Stage): Stage {
    match stage
    case Asked => Pushed
    case Pushed => Answered
    case _ => Delivered
  }

  function PushHand(pc: ClientPc): seq<Item> { if pc.Push? then [pc.item] else [] }
  function ReplyHand(pc: ClientPc): seq<Item> { if pc.ReplyDeliver? then [pc.hand] else [] }

  /** The requests that have reached a stage but not the one after it, oldest first. */
  function Between(stage: Stage, s: State): seq<Item> {
    match stage
    case Asked => PushHand(s.client.pc)
    case Pushed => ServerHand(s.server.pc) + s.req.items
    case Answered => ReplyHand(s.client.pc) + s.res.items
    case Delivered => []
  }

  lemma EmptyEnds<T>(q: seq<T>)
    ensures [] + q == q == q + []
  {}

  lemma Associates<T>(p: seq<T>, q: seq<T>, r: seq<T>)
    ensures p + (q + r) == (p + q) + r
  {}

  lemma BetweenFrame(stage: Stage, s: State, t: State)
    requires t.req.items == s.req.items && t.res.items == s.res.items && ServerHand(t.server.pc) == ServerHand(s.server.pc)
    requires PushHand(t.client.pc) == PushHand(s.client.pc) && ReplyHand(t.client.pc) == ReplyHand(s.client.pc)
    ensures Between(stage, t) == Between(stage, s)
  {}

  lemma FetchMoves(stage: Stage, cfg: Config, s: State, msg: nat)
    requires !stage.Delivered? && s.client.pc.Idle?
    ensures Between(stage, Fetch(s)) == Between(stage, s)
    ensures At(stage, cfg, s, ClientStep(msg)) == At(After(stage), cfg, s, ClientStep(msg)) == []
  {
    BetweenFrame(stage, s, Fetch(s));
  }

  lemma ReplyPopMoves(stage: Stage, cfg: Config, s: State)
    requires !stage.Delivered? && s.client.pc.ReplyPop? && s.res.items != []
    ensures Between(stage, ReplyStep(cfg, s)) == Between(stage, s)
  {
    assert [] + s.res.items == [s.res.items[0]] + s.res.items[1..];
  }

  lemma ReplyHolds(stage: Stage, cfg: Config, s: State)
    requires !stage.Delivered? && ReplyActive(s.client.pc) && !s.client.pc.ReplyDeliver?
    requires !(s.client.pc.ReplyPop? && s.res.items != [])
    ensures Between(stage, ReplyStep(cfg, s)) == Between(stage, s)
  {
    BetweenFrame(stage, s, ReplyStep(cfg, s));
  }

  lemma DeliverMoves(stage: Stage, cfg: Config, s: State)
    requires !stage.Delivered? && s.client.pc.ReplyDeliver?
    ensures Between(stage, ReplyStep(cfg, s)) == if stage.Answered? then [] + s.res.items else Between(stage, s)
  {}

  lemma ReplyMoves(stage: Stage, cfg: Config, s: State, msg: nat)
    requires !stage.Delivered? && ReplyActive(s.client.pc)
    ensures Between(stage, s) + At(stage, cfg, s, ClientStep(msg))
         == At(After(stage), cfg, s, ClientStep(msg)) + Between(stage, ReplyStep(cfg, s))
  {
    EmptyEnds(Between(stage, s));
    if s.client.pc.ReplyDeliver? {
      DeliverMoves(stage, cfg, s);
      EmptyEnds(s.res.items);
    } else if s.client.pc.ReplyPop? && s.res.items != [] {
      ReplyPopMoves(stage, cfg, s);
    } else {
      ReplyHolds(stage, cfg, s);
    }
  }

  lemma CallerMoves(stage: Stage, cfg: Config, s: State, msg: nat)
    requires !stage.Delivered? && RunsCaller(s.client.pc) && s.client.pc.c in s.client.callers
    ensures Between(stage, s) + At(stage, cfg, s, ClientStep(msg))
         == At(After(stage), cfg, s, ClientStep(msg)) + Between(stage, CallerStep(cfg, s, msg))
  {
    var t := CallerStep(cfg, s, msg);
    EmptyEnds(Between(stage, s));
    EmptyEnds(Between(stage, t));
    if s.client.pc.Push? { Associates(ServerHand(s.server.pc), s.req.items, [s.client.pc.item]); }
  }

  lemma ClientMoves(stage: Stage, cfg: Config, s: State, msg: nat)
    requires !stage.Delivered? && (RunsCaller(s.client.pc) ==> s.client.pc.c in s.client.callers)
    ensures Between(stage, s) + At(stage, cfg, s, ClientStep(msg))
         == At(After(stage), cfg, s, ClientStep(msg)) + Between(stage, ClientNext(cfg, s, msg))
  {
    if s.client.pc.Idle? {
      FetchMoves(stage, cfg, s, msg);
    } else if ReplyActive(s.client.pc) {
      ReplyMoves(stage, cfg, s, msg);
    } else {
      CallerMoves(stage, cfg, s, msg);
    }
  }

  lemma ServerPopMoves(stage: Stage, cfg: Config, s: State)
    requires !stage.Delivered? && s.server.pc.Pop? && s.req.items != []
    ensures Between(stage, ServerNext(cfg, s)) == Between(stage, s)
  {
    assert [] + s.req.items == [s.req.items[0]] + s.req.items[1..];
  }

  lemma ServerAnswerMoves(stage: Stage, cfg: Config, s: State)
    requires !stage.Delivered? && s.server.pc.Answer?
    ensures Between(stage, s) + At(stage, cfg, s, ServerStep)
         == At(After(stage), cfg, s, ServerStep) + Between(stage, ServerNext(cfg, s))
  {
    var t := ServerNext(cfg, s);
    match stage {
      case Asked => assert Between(Asked, t) == Between(Asked, s);
      case Pushed => EmptyEnds(s.req.items); EmptyEnds(Between(Pushed, s));
      case Answered =>
        Associates(ReplyHand(s.client.pc), s.res.items, [s.server.pc.hand]);
        EmptyEnds(Between(Answered, s));
        EmptyEnds(Between(Answered, t));
    }
  }

  lemma ServerHolds(stage: Stage, cfg: Config, s: State)
    requires !stage.Delivered? && !s.server.pc.Answer? && !(s.server.pc.Pop? && s.req.items != [])
    ensures Between(stage, ServerNext(cfg, s)) == Between(stage, s)
  {
    ServerMovesNothing(cfg, s);
    BetweenFrame(stage, s, ServerNext(cfg, s));
  }

  lemma ServerMoves(stage: Stage, cfg: Config, s: State)
    requires !stage.Delivered?
    ensures Between(stage, s) + At(stage, cfg, s, ServerStep)
         == At(After(stage), cfg, s, ServerStep) + Between(stage, ServerNext(cfg, s))
  {
    if s.server.pc.Answer? {
      ServerAnswerMoves(stage, cfg, s);
    } else {
      if s.server.pc.Pop? && s.req.items != [] {
        ServerPopMoves(stage, cfg, s);
      } else {
        ServerHolds(stage, cfg, s);
      }
      assert At(stage, cfg, s, ServerStep) == At(After(stage), cfg, s, ServerStep) == [];
    }
  }

  lemma StepMoves(stage: Stage, cfg: Config, s: State, a: Action)
    requires !stage.Delivered? && (RunsCaller(s.client.pc) ==> s.client.pc.c in s.client.callers)
    ensures Between(stage, s) + At(stage, cfg, s, a) == At(After(stage), cfg, s, a) + Between(stage, Next(cfg, s, a))
  {
    match a {
      case ClientStep(msg) => ClientMoves(stage, cfg, s, msg);
      case ServerStep => ServerMoves(stage, cfg, s);
      case _ =>
    }
  }

  /** The requests that reach a stage in the course of a run, in order. */
  function Trace(stage: Stage, cfg: Config, s: State, actions: seq<Action>): seq<Item>
    decreases |actions|
  {
    if actions == [] then [] else At(stage, cfg, s, actions[0]) + Trace(stage, cfg, Next(cfg, s, actions[0]), actions[1..])
  }

  lemma {:induction false} RunMoves(stage: Stage, cfg: Config, s: State, actions: seq<Action>)
    requires cfg.Valid() && Inv(cfg, s) && !stage.Delivered?
    ensures Between(stage, s) + Trace(stage, cfg, s, actions)
         == Trace(After(stage), cfg, s, actions) + Between(stage, Run(cfg, s, actions))
    decreases |actions|
  {
    if actions == [] {
      assert Between(stage, s) + [] == [] + Between(stage, s);
    } else {
      var a, t := actions[0], Next(cfg, s, actions[0]);
      KnownCaller(cfg, s);
      StepKeeps(cfg, s, a);
      StepMoves(stage, cfg, s, a);
      RunMoves(stage, cfg, t, actions[1..]);
      Chain(Between(stage, s), At(stage, cfg, s, a), At(After(stage), cfg, s, a), Between(stage, t),
            Trace(stage, cfg, t, actions[1..]), Trace(After(stage), cfg, t, actions[1..]),
            Between(stage, Run(cfg, t, actions[1..])));
    }
  }

  /** The caller that the executor starts or resumes in this step, if any. */
  function Ran(cfg: Config, s: State, a: Action): seq<nat> {
    var pc := Next(cfg, s, a).client.pc;
    if a.ClientStep? && s.client.pc.Idle? && RunsCaller(pc) then [pc.c] else []
  }

  function AllRan(cfg: Config, s: State, actions: seq<Action>): seq<nat>
    decreases |actions|
  {
    if actions == [] then [] else Ran(cfg, s, actions[0]) + AllRan(cfg, Next(cfg, s, actions[0]), actions[1..])
  }

  function Cids(q: seq<Item>): seq<nat> { if q == [] then [] else [q[0].cid] + Cids(q[1..]) }

  lemma {:induction false} CidsAppend(p: seq<Item>, q: seq<Item>)
    ensures Cids(p + q) == Cids(p) + Cids(q)
  {
    if p == [] {
      assert p + q == q;
    } else {
      assert (p + q)[1..] == p[1..] + q;
      CidsAppend(p[1..], q);
    }
  }

  lemma FetchRuns(cfg: Config, s: State, msg: nat)
    requires s.client.pc.Idle? && Fetch(s).faults == s.faults == {}
    ensures s.client.ready == Ran(cfg, s, ClientStep(msg)) + Fetch(s).client.ready
  {}

  lemma DeliverReadies(cfg: Config, s: State)
    requires s.client.pc.ReplyDeliver? && Deliver(cfg, s, s.client.pc.hand).faults == s.faults == {}
    ensures Deliver(cfg, s, s.client.pc.hand).client.ready == s.client.ready + Cids([s.client.pc.hand])
  {
    assert [s.client.pc.hand][1..] == [];
  }

  lemma OthersKeepReady(cfg: Config, s: State, a: Action)
    requires !(a.ClientStep? && (s.client.pc.Idle? || s.client.pc.ReplyDeliver?))
    ensures Next(cfg, s, a).client.ready == s.client.ready && Ran(cfg, s, a) == [] && At(Delivered, cfg, s, a) == []
  {}

  lemma StepRuns(cfg: Config, s: State, a: Action)
    requires Next(cfg, s, a).faults == s.faults == {}
    ensures s.client.ready + Cids(At(Delivered, cfg, s, a)) == Ran(cfg, s, a) + Next(cfg, s, a).client.ready
  {
    if a.ClientStep? && s.client.pc.Idle? {
      FetchRuns(cfg, s, a.msg);
    } else if a.ClientStep? && s.client.pc.ReplyDeliver? {
      DeliverReadies(cfg, s);
    } else {
      OthersKeepReady(cfg, s, a);
    }
  }

  lemma {:induction false} RunRuns(cfg: Config, s: State, actions: seq<Action>)
    requires cfg.Valid() && Inv(cfg, s)
    ensures s.client.ready + Cids(Trace(Delivered, cfg, s, actions)) == AllRan(cfg, s, actions) + Run(cfg, s, actions).client.ready
    decreases |actions|
  {
    if actions != [] {
      var a, t := actions[0], Next(cfg, s, actions[0]);
      StepKeeps(cfg, s, a);
      StepRuns(cfg, s, a);
      RunRuns(cfg, t, actions[1..]);
      CidsAppend(At(Delivered, cfg, s, a), Trace(Delivered, cfg, t, actions[1..]));
      Chain(s.client.ready, Cids(At(Delivered, cfg, s, a)), Ran(cfg, s, a), t.client.ready,
            Cids(Trace(Delivered, cfg, t, actions[1..])), AllRan(cfg, t, actions[1..]), Run(cfg, t, actions[1..]).client.ready);
    }
  }

  /** In every reachable state in which the client's executor is about to fetch: it runs the reply coroutine exactly
      if that is ready or has a deferred wake, and otherwise the caller that has been ready longest. */
  lemma RepliesComeFirst(cfg: Config, actions: seq<Action>, msg: nat)
    requires cfg.Valid() && Run(cfg, Init(cfg), actions).client.pc.Idle?
    ensures var s := Run(cfg, Init(cfg), actions);
      var awake := s.client.alive && (s.client.wakes.ready > 0 || s.client.wakes.delayed);
      var t := Next(cfg, s, ClientStep(msg));
      && (awake <==> t.client.pc == ReplyPop)
      && (!awake && s.client.ready != [] <==> RunsCaller(t.client.pc))
      && (RunsCaller(t.client.pc) ==> t.client.pc.c == s.client.ready[0])
  {
    InitInv(cfg);
    RunKeeps(cfg, Init(cfg), actions);
    var s := Run(cfg, Init(cfg), actions);
    if s.client.ready != [] { assert CallerOk(s.client, s.client.ready[0]); }
  }

  /** In every interleaving, everything happens in order: the requests pushed are the first ones made, each with the
      message that its caller was given; those answered are the first ones pushed; those delivered are the first
      ones answered; and the callers run in spawn order and then in the order in which their replies are delivered. */
  lemma EveryRunIsInOrder(cfg: Config, actions: seq<Action>)
    requires cfg.Valid()
    ensures var s := Run(cfg, Init(cfg), actions);
      && Trace(Asked, cfg, Init(cfg), actions) == Trace(Pushed, cfg, Init(cfg), actions) + Between(Asked, s)
      && Trace(Pushed, cfg, Init(cfg), actions) == Trace(Answered, cfg, Init(cfg), actions) + Between(Pushed, s)
      && Trace(Answered, cfg, Init(cfg), actions) == Trace(Delivered, cfg, Init(cfg), actions) + Between(Answered, s)
      && cfg.order + Cids(Trace(Delivered, cfg, Init(cfg), actions)) == AllRan(cfg, Init(cfg), actions) + s.client.ready
  {
    InitInv(cfg);
    RunMoves(Asked, cfg, Init(cfg), actions);
    RunMoves(Pushed, cfg, Init(cfg), actions);
    RunMoves(Answered, cfg, Init(cfg), actions);
    RunRuns(cfg, Init(cfg), actions);
    assert forall q: seq<Item> :: [] + q == q;
  }
}
